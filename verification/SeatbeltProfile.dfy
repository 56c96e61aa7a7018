/** The Seatbelt profile: printing a network access into a profile and reading it back. */
module SeatbeltProfile {
  import opened RuntimeContract
  import opened Text

  datatype Access = Deny | Allowlist(endpoints: seq<(string, nat)>)

  datatype InvalidPolicy = InvalidPolicy

  /** The fixed text of a profile: its leading lines, the mark of an endpoint line, and the rule that follows. */
  datatype Layout = Layout(header: seq<string>, mark: string, rule: string)

  // ---- The rules and their text.

  datatype Operation = Process | FileRead | FileWrite | FileIoctl | SysctlRead | NetworkOutbound

  datatype Place = Users | Home | Volumes | WorkspaceRoot | Workspace

  datatype Device = DevNull | DevRandom | DevUrandom

  datatype Filter = Subpath(place: Place) | Literal(device: Device) | Proxy

  /** A rule without filters is about every target. */
  datatype Rule = DenyDefault | Rule(allow: bool, operations: seq<Operation>, filters: seq<Filter>)

  /** The rules of every profile, in order. */
  const POLICY: seq<Rule> := [
    DenyDefault,
    Rule(true, [Process], []),
    Rule(true, [FileRead], []),
    Rule(false, [FileRead], [Subpath(Users)]),
    Rule(false, [FileRead], [Subpath(Home)]),
    Rule(false, [FileRead], [Subpath(Volumes)]),
    Rule(false, [FileRead], [Subpath(WorkspaceRoot)]),
    Rule(true, [FileRead], [Subpath(Workspace)]),
    Rule(true, [FileWrite], [Subpath(Workspace)]),
    Rule(true, [FileRead, FileWrite], [Literal(DevNull)]),
    Rule(true, [FileRead], [Literal(DevRandom), Literal(DevUrandom)]),
    Rule(true, [FileIoctl], [Literal(DevNull), Literal(DevRandom), Literal(DevUrandom)]),
    Rule(true, [SysctlRead], [])]

  const EGRESS := Rule(true, [NetworkOutbound], [Proxy])

  function OperationText(o: Operation): string {
    match o
    case Process => "process*"
    case FileRead => "file-read*"
    case FileWrite => "file-write*"
    case FileIoctl => "file-ioctl"
    case SysctlRead => "sysctl-read"
    case NetworkOutbound => "network-outbound"
  }

  function PlaceText(place: Place): string {
    match place
    case Users => "\"/Users\""
    case Home => "\"/home\""
    case Volumes => "\"/Volumes\""
    case WorkspaceRoot => "workspace-root"
    case Workspace => "workspace"
  }

  function DeviceText(d: Device): string {
    match d
    case DevNull => "\"/dev/null\""
    case DevRandom => "\"/dev/random\""
    case DevUrandom => "\"/dev/urandom\""
  }

  function FilterText(f: Filter): string {
    match f
    case Subpath(place) => "(subpath " + PlaceText(place) + ")"
    case Literal(d) => "(literal " + DeviceText(d) + ")"
    case Proxy => "(remote tcp (param \"PROXY_ENDPOINT\"))"
  }

  function OperationTexts(os: seq<Operation>): string {
    if os == [] then "" else " " + OperationText(os[0]) + OperationTexts(os[1..])
  }

  function FilterTexts(fs: seq<Filter>): string {
    if fs == [] then "" else " " + FilterText(fs[0]) + FilterTexts(fs[1..])
  }

  function RuleText(r: Rule): string {
    match r
    case DenyDefault => "(deny default)"
    case Rule(allow, os, fs) =>
      (if allow then "(allow" else "(deny") + OperationTexts(os) + FilterTexts(fs) + ")"
  }

  function RuleTexts(rs: seq<Rule>): (lines: seq<string>)
    ensures |lines| == |rs| && forall i :: 0 <= i < |rs| ==> lines[i] == RuleText(rs[i])
  {
    seq(|rs|, i requires 0 <= i < |rs| => RuleText(rs[i]))
  }

  const TITLE := ";; OpenBox native profile v2 " + "(deployment compiled; never " + "request generated)"
  const DEFINE_ROOT := "(define " + PlaceText(WorkspaceRoot) + " (param \"WORKSPACE_ROOT\"))"
  const DEFINE_WORKSPACE := "(define " + PlaceText(Workspace) + " (param \"WORKSPACE\"))"
  const PREAMBLE := [TITLE, "(version 1)", DEFINE_ROOT, DEFINE_WORKSPACE]
  const MARK := ";; OPENBOX_EGRESS_ALLOW "

  const SEATBELT := Layout(PREAMBLE + RuleTexts(POLICY), MARK, RuleText(EGRESS))

  /** A rule says whether it allows or denies, then which operations, then where. */
  lemma RuleTextTells(r: Rule)
    requires r.Rule?
    ensures RuleText(r) ==
            (if r.allow then "(allow" else "(deny") + (OperationTexts(r.operations) + FilterTexts(r.filters) + ")")
  {
  }

  lemma OperationNames()
    ensures OperationText(Process) == "process*" && OperationText(FileRead) == "file-read*"
    ensures OperationText(FileWrite) == "file-write*" && OperationText(FileIoctl) == "file-ioctl"
    ensures OperationText(SysctlRead) == "sysctl-read" && OperationText(NetworkOutbound) == "network-outbound"
    ensures PlaceText(WorkspaceRoot) == "workspace-root" && PlaceText(Workspace) == "workspace"
  {
  }

  // ---- What the rules mean.

  type Path = seq<string>

  /** Where the two parameters point, and the proxy endpoint. */
  datatype Parameters = Parameters(workspaceRoot: Path, workspace: Path, proxy: nat)

  /** What a process asks for: a known operation or none of them, on a path, or towards an address. */
  datatype Request = Request(operation: Option<Operation>, path: Path, address: nat)

  function PlacePath(place: Place, env: Parameters): Path {
    match place
    case Users => ["Users"]
    case Home => ["home"]
    case Volumes => ["Volumes"]
    case WorkspaceRoot => env.workspaceRoot
    case Workspace => env.workspace
  }

  function DevicePath(d: Device): Path {
    match d
    case DevNull => ["dev", "null"]
    case DevRandom => ["dev", "random"]
    case DevUrandom => ["dev", "urandom"]
  }

  predicate Covers(f: Filter, env: Parameters, q: Request) {
    match f
    case Subpath(place) => PlacePath(place, env) <= q.path
    case Literal(d) => q.path == DevicePath(d)
    case Proxy => q.address == env.proxy
  }

  predicate AnyCovers(fs: seq<Filter>, env: Parameters, q: Request) {
    fs != [] && (Covers(fs[0], env, q) || AnyCovers(fs[1..], env, q))
  }

  predicate Applies(r: Rule, env: Parameters, q: Request) {
    match r
    case DenyDefault => true
    case Rule(_, os, fs) =>
      && q.operation.Some? && q.operation.value in os
      && (fs == [] || AnyCovers(fs, env, q))
  }

  /** Later rules take precedence; what no rule speaks about is not denied. */
  predicate Permitted(rules: seq<Rule>, env: Parameters, q: Request) {
    if rules == [] then true
    else
      var last := rules[|rules| - 1];
      if Applies(last, env, q) then last.Rule? && last.allow else Permitted(rules[..|rules| - 1], env, q)
  }

  function RulesOf(access: Access): seq<Rule> {
    if access.Deny? then POLICY else POLICY + [EGRESS]
  }

  predicate Under(place: Place, env: Parameters, q: Request) {
    PlacePath(place, env) <= q.path
  }

  predicate IsDevice(q: Request) {
    q.path == ["dev", "null"] || q.path == ["dev", "random"] || q.path == ["dev", "urandom"]
  }

  /** What a compiled profile is for. */
  predicate Intended(access: Access, env: Parameters, q: Request) {
    match q.operation
    case None => false
    case Some(Process) => true
    case Some(SysctlRead) => true
    case Some(FileRead) =>
      || env.workspace <= q.path || IsDevice(q)
      || !(env.workspaceRoot <= q.path || ["Users"] <= q.path || ["home"] <= q.path || ["Volumes"] <= q.path)
    case Some(FileWrite) => env.workspace <= q.path || q.path == ["dev", "null"]
    case Some(FileIoctl) => IsDevice(q)
    case Some(NetworkOutbound) => access.Allowlist? && q.address == env.proxy
  }

  /** The texts of fixed places and devices are their paths. */
  lemma TextsArePaths(place: Place, d: Device, env: Parameters)
    requires place == Users || place == Home || place == Volumes
    ensures |PlacePath(place, env)| == 1 && PlaceText(place) == "\"/" + PlacePath(place, env)[0] + "\""
    ensures |DevicePath(d)| == 2 && DevicePath(d)[0] == "dev"
    ensures DeviceText(d) == "\"/dev/" + DevicePath(d)[1] + "\""
  {
  }

  lemma Step(rules: seq<Rule>, k: nat, env: Parameters, q: Request)
    requires k < |rules|
    ensures Permitted(rules[..k + 1], env, q) ==
            if Applies(rules[k], env, q) then rules[k].Rule? && rules[k].allow else Permitted(rules[..k], env, q)
  {
    assert rules[..k + 1][..k] == rules[..k];
  }

  lemma Steps(rules: seq<Rule>, env: Parameters, q: Request)
    ensures forall k: nat :: k < |rules| ==>
              Permitted(rules[..k + 1], env, q) ==
              if Applies(rules[k], env, q) then rules[k].Rule? && rules[k].allow else Permitted(rules[..k], env, q)
  {
    forall k: nat | k < |rules| {
      Step(rules, k, env, q);
    }
  }

  lemma CoversFew(a: Filter, b: Filter, c: Filter, env: Parameters, q: Request)
    ensures AnyCovers([a], env, q) <==> Covers(a, env, q)
    ensures AnyCovers([a, b], env, q) <==> Covers(a, env, q) || Covers(b, env, q)
    ensures AnyCovers([a, b, c], env, q) <==> Covers(a, env, q) || Covers(b, env, q) || Covers(c, env, q)
  {
    assert [a, b, c][1..] == [b, c] && [a, b][1..] == [b] && [b, c][1..] == [c] && [a][1..] == [] && [c][1..] == [];
    assert AnyCovers([c], env, q) <==> Covers(c, env, q);
    assert AnyCovers([b, c], env, q) <==> Covers(b, env, q) || Covers(c, env, q);
  }

  lemma CoversDevices(env: Parameters, q: Request)
    ensures AnyCovers([Literal(DevNull)], env, q) <==> q.path == ["dev", "null"]
    ensures AnyCovers([Literal(DevRandom), Literal(DevUrandom)], env, q) <==>
            q.path == ["dev", "random"] || q.path == ["dev", "urandom"]
    ensures AnyCovers([Literal(DevNull), Literal(DevRandom), Literal(DevUrandom)], env, q) <==> IsDevice(q)
  {
    CoversFew(Literal(DevNull), Literal(DevRandom), Literal(DevUrandom), env, q);
    CoversFew(Literal(DevRandom), Literal(DevUrandom), Literal(DevUrandom), env, q);
  }

  /** The rules about devices and system controls. */
  lemma TailMeans(env: Parameters, q: Request)
    ensures Permitted(POLICY, env, q) ==
            if q.operation == Some(SysctlRead) then true
            else if q.operation == Some(FileIoctl) && IsDevice(q) then true
            else if q.operation == Some(FileRead) && IsDevice(q) then true
            else if q.operation == Some(FileWrite) && q.path == ["dev", "null"] then true
            else Permitted(POLICY[..9], env, q)
  {
    assert POLICY[..13] == POLICY;
    Step(POLICY, 12, env, q);
    Step(POLICY, 11, env, q);
    Step(POLICY, 10, env, q);
    Step(POLICY, 9, env, q);
    CoversDevices(env, q);
  }

  lemma CoversPlace(place: Place, env: Parameters, q: Request)
    ensures AnyCovers([Subpath(place)], env, q) <==> Under(place, env, q)
  {
    CoversFew(Subpath(place), Proxy, Proxy, env, q);
  }

  /** The rules about the workspace. */
  lemma WorkspaceMeans(env: Parameters, q: Request)
    ensures Permitted(POLICY[..9], env, q) ==
            if q.operation == Some(FileWrite) then Under(Workspace, env, q)
            else if q.operation == Some(FileRead) && Under(Workspace, env, q) then true
            else if q.operation == Some(FileRead) && Under(WorkspaceRoot, env, q) then false
            else Permitted(POLICY[..6], env, q)
  {
    Steps(POLICY, env, q);
    CoversPlace(Workspace, env, q);
    CoversPlace(WorkspaceRoot, env, q);
    if q.operation == Some(FileWrite) {
      HeadMeans(env, q);
    }
  }

  /** The rules before those: processes, and reading outside the homes and volumes. */
  lemma HeadMeans(env: Parameters, q: Request)
    ensures Permitted(POLICY[..6], env, q) <==>
            || q.operation == Some(Process)
            || (q.operation == Some(FileRead) && !Under(Users, env, q) && !Under(Home, env, q) &&
                !Under(Volumes, env, q))
  {
    Steps(POLICY, env, q);
    CoversPlace(Users, env, q);
    CoversPlace(Home, env, q);
    CoversPlace(Volumes, env, q);
    assert !Permitted(POLICY[..1], env, q) by {
      Step(POLICY, 0, env, q);
    }
    Step(POLICY, 1, env, q);
    Step(POLICY, 2, env, q);
  }

  /** The compiled rules permit exactly what they are for, wherever the workspace lies: reading outside the workspace
      root, the homes and the volumes, and in the workspace even so; writing in the workspace; the three devices; and
      the network only through the proxy, and only with an allowlist. */
  lemma ProfileMeans(access: Access, env: Parameters, q: Request)
    ensures Permitted(RulesOf(access), env, q) <==> Intended(access, env, q)
  {
    TailMeans(env, q);
    WorkspaceMeans(env, q);
    HeadMeans(env, q);
    if access.Allowlist? {
      CoversFew(Proxy, Proxy, Proxy, env, q);
      assert (POLICY + [EGRESS])[..13] == POLICY;
    }
  }

  /** What the round trip needs of the fixed text: whole lines, of which only endpoint lines carry the mark. */
  predicate WellFormed(y: Layout) {
    && AllUnmarked(y.header, y.mark)
    && Unmarked(y.rule, y.mark) && '\n' !in y.mark
  }

  predicate Unmarked(line: string, mark: string) {
    PlainLine(line) && !(mark <= line)
  }

  function EndpointLine(mark: string, e: (string, nat)): string {
    mark + e.0 + ":" + Digits(e.1)
  }

  /** The fold that prints one metadata line per endpoint. */
  function Metadata(mark: string, endpoints: seq<(string, nat)>): string {
    if endpoints == [] then "" else
      Metadata(mark, endpoints[..|endpoints| - 1]) + EndpointLine(mark, endpoints[|endpoints| - 1]) + "\n"
  }

  function Compile(y: Layout, access: Access): string {
    Unlines(y.header) + (match access case Deny => "" case Allowlist(es) => Metadata(y.mark, es) + y.rule + "\n")
  }

  function StripPrefix(s: string, prefix: string): Option<string> {
    if prefix <= s then Some(s[|prefix|..]) else None
  }

  function ParseEndpoint(target: string): Result<(string, nat), InvalidPolicy> {
    match RSplitOnce(target, ':')
    case None => Failure(InvalidPolicy)
    case Some((host, port)) =>
      match ParseU16(port)
      case None => Failure(InvalidPolicy)
      case Some(p) => if host == "" then Failure(InvalidPolicy) else Success((host, p))
  }

  /** The marked lines parsed in order; the first malformed one fails the whole. */
  function ParseMarked(mark: string, lines: seq<string>): (r: Result<seq<(string, nat)>, InvalidPolicy>)
    requires forall i :: 0 <= i < |lines| ==> '\n' !in lines[i]
    ensures r.Success? ==> forall i :: 0 <= i < |r.value| ==> Printable(r.value[i])
  {
    if lines == [] then Success([])
    else match StripPrefix(lines[0], mark)
      case None => ParseMarked(mark, lines[1..])
      case Some(target) =>
        match ParseEndpoint(target)
        case Failure(e) => Failure(e)
        case Success(endpoint) =>
          assert forall c :: c in endpoint.0 ==> c in target && c in lines[0];
          match ParseMarked(mark, lines[1..])
          case Failure(e) => Failure(e)
          case Success(rest) => Success([endpoint] + rest)
  }

  /** An allowlist is read exactly from a body with endpoints, all well formed, in which the rule stands. */
  lemma AllowlistIff(y: Layout, body: string)
    ensures Parse(y, body).Success? && Parse(y, body).value.Allowlist? <==>
            && ParseMarked(y.mark, Lines(body)).Success? && ParseMarked(y.mark, Lines(body)).value != []
            && IsPart(body, y.rule)
  {
    ContainsIff(body, y.rule);
  }

  /** One malformed endpoint line spoils the profile, and only that. */
  lemma {:induction false} MarkedLinesMustParse(mark: string, lines: seq<string>)
    requires forall i :: 0 <= i < |lines| ==> '\n' !in lines[i]
    ensures ParseMarked(mark, lines).Success? <==>
            forall i :: 0 <= i < |lines| && mark <= lines[i] ==> ParseEndpoint(lines[i][|mark|..]).Success?
  {
    if lines != [] {
      MarkedLinesMustParse(mark, lines[1..]);
      assert forall i :: 1 <= i < |lines| ==> lines[i] == lines[1..][i - 1];
      assert forall i :: 0 <= i < |lines[1..]| ==> lines[1..][i] == lines[i + 1];
    }
  }

  function Parse(y: Layout, body: string): Result<Access, InvalidPolicy> {
    match ParseMarked(y.mark, Lines(body))
    case Failure(e) => Failure(e)
    case Success(endpoints) =>
      if endpoints == [] then Success(Deny)
      else if Contains(body, y.rule) then Success(Allowlist(endpoints))
      else Failure(InvalidPolicy)
  }

  /** The endpoints that survive printing: a nonempty host on one line, and a 16-bit port. */
  predicate Printable(e: (string, nat)) {
    e.0 != "" && '\n' !in e.0 && e.1 <= 0xffff
  }

  /** A line that opens a form is not an endpoint line. */
  lemma FormIsUnmarked(line: string)
    requires line != "" && line[0] == '(' && line[|line| - 1] == ')' && '\n' !in line
    ensures Unmarked(line, MARK)
  {
    assert MARK[0] == ';';
  }

  lemma TitleIsUnmarked()
    ensures Unmarked(TITLE, MARK) && '\n' !in MARK
  {
    assert TITLE[4] == 'p' && MARK[4] == 'P';
  }

  lemma PreambleIsUnmarked()
    ensures AllUnmarked(PREAMBLE, MARK)
  {
    TitleIsUnmarked();
    FormIsUnmarked("(version 1)");
    FormIsUnmarked(DEFINE_ROOT);
    FormIsUnmarked(DEFINE_WORKSPACE);
  }

  lemma OperationIsPlain(o: Operation)
    ensures '\n' !in OperationText(o)
  {
  }

  lemma PlaceIsPlain(place: Place)
    ensures '\n' !in PlaceText(place)
  {
  }

  lemma DeviceIsPlain(d: Device)
    ensures '\n' !in DeviceText(d)
  {
  }

  lemma PlainTogether(a: string, b: string, c: string)
    requires '\n' !in a && '\n' !in b && '\n' !in c
    ensures '\n' !in a + b + c
  {
  }

  lemma FilterIsPlain(f: Filter)
    ensures '\n' !in FilterText(f)
  {
    match f
    case Subpath(place) =>
      PlaceIsPlain(place);
      PlainTogether("(subpath ", PlaceText(place), ")");
    case Literal(d) =>
      DeviceIsPlain(d);
      PlainTogether("(literal ", DeviceText(d), ")");
    case Proxy =>
  }

  lemma {:induction false} OperationsArePlain(os: seq<Operation>)
    ensures '\n' !in OperationTexts(os)
  {
    if os != [] {
      OperationIsPlain(os[0]);
      OperationsArePlain(os[1..]);
    }
  }

  lemma {:induction false} FiltersArePlain(fs: seq<Filter>)
    ensures '\n' !in FilterTexts(fs)
  {
    if fs != [] {
      FilterIsPlain(fs[0]);
      FiltersArePlain(fs[1..]);
    }
  }

  /** Every rule prints as one line that is not an endpoint line. */
  lemma RuleIsUnmarked(r: Rule)
    ensures Unmarked(RuleText(r), MARK)
  {
    if r.Rule? {
      OperationsArePlain(r.operations);
      FiltersArePlain(r.filters);
    }
    FormIsUnmarked(RuleText(r));
  }

  predicate AllUnmarked(lines: seq<string>, mark: string) {
    forall i :: 0 <= i < |lines| ==> Unmarked(lines[i], mark)
  }

  lemma AllUnmarkedTogether(a: seq<string>, b: seq<string>, mark: string)
    requires AllUnmarked(a, mark) && AllUnmarked(b, mark)
    ensures AllUnmarked(a + b, mark)
  {
  }

  lemma RulesAreUnmarked(rules: seq<Rule>)
    ensures AllUnmarked(RuleTexts(rules), MARK)
  {
    forall i | 0 <= i < |rules|
      ensures Unmarked(RuleTexts(rules)[i], MARK)
    {
      RuleIsUnmarked(rules[i]);
    }
  }

  /** The actual profile text is well formed. */
  lemma SeatbeltIsWellFormed()
    ensures WellFormed(SEATBELT)
  {
    TitleIsUnmarked();
    PreambleIsUnmarked();
    RuleIsUnmarked(EGRESS);
    RulesAreUnmarked(POLICY);
    AllUnmarkedTogether(PREAMBLE, RuleTexts(POLICY), MARK);
  }

  function EndpointLines(mark: string, endpoints: seq<(string, nat)>): (r: seq<string>)
    ensures |r| == |endpoints|
    ensures forall i :: 0 <= i < |r| ==> r[i] == EndpointLine(mark, endpoints[i])
  {
    seq(|endpoints|, i requires 0 <= i < |endpoints| => EndpointLine(mark, endpoints[i]))
  }

  lemma {:induction false} MetadataIsLines(mark: string, endpoints: seq<(string, nat)>)
    ensures Metadata(mark, endpoints) == Unlines(EndpointLines(mark, endpoints))
  {
    if endpoints != [] {
      var n := |endpoints| - 1;
      MetadataIsLines(mark, endpoints[..n]);
      var last := EndpointLine(mark, endpoints[n]);
      assert EndpointLines(mark, endpoints) == EndpointLines(mark, endpoints[..n]) + [last];
      UnlinesAppend(EndpointLines(mark, endpoints[..n]), [last]);
      assert Unlines([last]) == last + "\n";
    }
  }

  lemma CompileIsLines(y: Layout, endpoints: seq<(string, nat)>)
    ensures Compile(y, Allowlist(endpoints)) == Unlines(y.header + EndpointLines(y.mark, endpoints) + [y.rule])
  {
    MetadataIsLines(y.mark, endpoints);
    UnlinesAppend(y.header + EndpointLines(y.mark, endpoints), [y.rule]);
    UnlinesAppend(y.header, EndpointLines(y.mark, endpoints));
    assert Unlines([y.rule]) == y.rule + "\n";
  }

  lemma EndpointParses(e: (string, nat))
    requires Printable(e)
    ensures ParseEndpoint(e.0 + [':'] + Digits(e.1)) == Success(e)
  {
    RSplitOnceAt(e.0, ':', Digits(e.1));
    U16RoundTrip(e.1);
  }

  lemma EndpointIsPlain(mark: string, e: (string, nat))
    requires Printable(e) && '\n' !in mark
    ensures PlainLine(mark + e.0 + [':'] + Digits(e.1))
  {
    var digits := Digits(e.1);
    var line := mark + e.0 + [':'] + digits;
    assert line[|line| - 1] == digits[|digits| - 1];
    CharsOf(mark + e.0, ':', digits);
  }

  lemma EndpointRoundTrip(mark: string, e: (string, nat))
    requires Printable(e) && '\n' !in mark
    ensures PlainLine(EndpointLine(mark, e)) && mark <= EndpointLine(mark, e)
    ensures ParseEndpoint(EndpointLine(mark, e)[|mark|..]) == Success(e)
  {
    EndpointParses(e);
    EndpointIsPlain(mark, e);
    assert EndpointLine(mark, e) == mark + e.0 + [':'] + Digits(e.1);
    assert EndpointLine(mark, e)[|mark|..] == e.0 + [':'] + Digits(e.1);
  }

  lemma {:induction false} ParseMarkedSkips(mark: string, prefix: seq<string>, lines: seq<string>)
    requires forall i :: 0 <= i < |prefix| ==> Unmarked(prefix[i], mark)
    requires forall i :: 0 <= i < |lines| ==> '\n' !in lines[i]
    ensures forall i :: 0 <= i < |prefix + lines| ==> '\n' !in (prefix + lines)[i]
    ensures ParseMarked(mark, prefix + lines) == ParseMarked(mark, lines)
  {
    if prefix == [] {
      assert prefix + lines == lines;
    } else {
      assert (prefix + lines)[0] == prefix[0] && (prefix + lines)[1..] == prefix[1..] + lines;
      ParseMarkedSkips(mark, prefix[1..], lines);
    }
  }

  lemma EndpointLinesArePlain(y: Layout, endpoints: seq<(string, nat)>)
    requires WellFormed(y) && forall i :: 0 <= i < |endpoints| ==> Printable(endpoints[i])
    ensures forall line :: line in EndpointLines(y.mark, endpoints) + [y.rule] ==> PlainLine(line)
  {
    var lines := EndpointLines(y.mark, endpoints) + [y.rule];
    forall i | 0 <= i < |lines|
      ensures PlainLine(lines[i])
    {
      if i < |endpoints| {
        EndpointRoundTrip(y.mark, endpoints[i]);
      }
    }
  }

  lemma RuleIsSkipped(y: Layout)
    requires WellFormed(y)
    ensures '\n' !in y.rule && ParseMarked(y.mark, [y.rule]) == Success([])
  {
    assert [y.rule][1..] == [];
  }

  lemma EndpointLinesCons(mark: string, endpoints: seq<(string, nat)>, tail: seq<string>)
    requires endpoints != []
    ensures EndpointLines(mark, endpoints) + tail ==
            [EndpointLine(mark, endpoints[0])] + (EndpointLines(mark, endpoints[1..]) + tail)
  {
  }

  lemma ParseMarkedCons(mark: string, line: string, lines: seq<string>, e: (string, nat), rest: seq<(string, nat)>)
    requires '\n' !in line && (forall i :: 0 <= i < |lines| ==> '\n' !in lines[i])
    requires mark <= line && ParseEndpoint(line[|mark|..]) == Success(e) && ParseMarked(mark, lines) == Success(rest)
    ensures ParseMarked(mark, [line] + lines) == Success([e] + rest)
  {
    assert ([line] + lines)[1..] == lines;
  }

  /** Whole lines from which exactly these endpoints are read. */
  predicate Reads(mark: string, lines: seq<string>, endpoints: seq<(string, nat)>) {
    (forall i :: 0 <= i < |lines| ==> '\n' !in lines[i]) && ParseMarked(mark, lines) == Success(endpoints)
  }

  lemma ReadsOneMore(mark: string, e: (string, nat), later: seq<string>, rest: seq<(string, nat)>)
    requires Printable(e) && '\n' !in mark && Reads(mark, later, rest)
    ensures Reads(mark, [EndpointLine(mark, e)] + later, [e] + rest)
  {
    EndpointRoundTrip(mark, e);
    ParseMarkedCons(mark, EndpointLine(mark, e), later, e, rest);
  }

  lemma ReadsNone(y: Layout)
    requires WellFormed(y)
    ensures Reads(y.mark, EndpointLines(y.mark, []) + [y.rule], [])
  {
    assert EndpointLines(y.mark, []) + [y.rule] == [y.rule];
    RuleIsSkipped(y);
  }

  lemma {:induction false} ParseMarkedReads(y: Layout, endpoints: seq<(string, nat)>)
    requires WellFormed(y) && forall i :: 0 <= i < |endpoints| ==> Printable(endpoints[i])
    ensures Reads(y.mark, EndpointLines(y.mark, endpoints) + [y.rule], endpoints)
  {
    if endpoints == [] {
      ReadsNone(y);
    } else {
      var e, rest := endpoints[0], endpoints[1..];
      ParseMarkedReads(y, rest);
      ReadsOneMore(y.mark, e, EndpointLines(y.mark, rest) + [y.rule], rest);
      EndpointLinesCons(y.mark, endpoints, [y.rule]);
      assert [e] + rest == endpoints;
    }
  }

  lemma AllowlistRoundTrip(y: Layout, endpoints: seq<(string, nat)>)
    requires WellFormed(y) && endpoints != [] && forall i :: 0 <= i < |endpoints| ==> Printable(endpoints[i])
    ensures Parse(y, Compile(y, Allowlist(endpoints))) == Success(Allowlist(endpoints))
  {
    var lines := EndpointLines(y.mark, endpoints) + [y.rule];
    ParseMarkedReads(y, endpoints);
    EndpointLinesArePlain(y, endpoints);
    var all := y.header + lines;
    assert y.header + EndpointLines(y.mark, endpoints) + [y.rule] == all;
    CompileIsLines(y, endpoints);
    LinesUnlines(all);
    ParseMarkedSkips(y.mark, y.header, lines);
    assert all[|all| - 1] == y.rule;
    UnlinesContains(all, |all| - 1);
  }

  lemma DenyRoundTrip(y: Layout)
    requires WellFormed(y)
    ensures Parse(y, Compile(y, Deny)) == Success(Deny)
  {
    assert Compile(y, Deny) == Unlines(y.header);
    LinesUnlines(y.header);
    assert y.header + [] == y.header;
    ParseMarkedSkips(y.mark, y.header, []);
  }

  lemma LayoutRoundTrip(y: Layout, access: Access)
    requires WellFormed(y)
    requires access.Allowlist? ==> access.endpoints != []
    requires access.Allowlist? ==> forall i :: 0 <= i < |access.endpoints| ==> Printable(access.endpoints[i])
    ensures Parse(y, Compile(y, access)) == Success(access)
  {
    match access
    case Deny => DenyRoundTrip(y);
    case Allowlist(endpoints) => AllowlistRoundTrip(y, endpoints);
  }

  /** Reading back a compiled profile gives the same access for Deny, and for an allowlist exactly when it is
      nonempty and every host is nonempty and stays on its line. */
  lemma ProfileRoundTrip(access: Access)
    requires access.Allowlist? ==> forall i :: 0 <= i < |access.endpoints| ==> access.endpoints[i].1 <= 0xffff
    ensures Parse(SEATBELT, Compile(SEATBELT, access)) == Success(access) <==>
            access.Deny? || (access.endpoints != [] &&
              forall i :: 0 <= i < |access.endpoints| ==> access.endpoints[i].0 != "" && '\n' !in access.endpoints[i].0)
  {
    SeatbeltIsWellFormed();
    var y := SEATBELT;
    if access.Deny? ||
       (access.endpoints != [] && forall i :: 0 <= i < |access.endpoints| ==> Printable(access.endpoints[i])) {
      LayoutRoundTrip(y, access);
    }
  }

  /** The lines of a compiled profile: the preamble, the rules in order, and for an allowlist the endpoints as comments
      before the rule that opens the proxy. */
  lemma ProfileText(access: Access)
    requires access.Allowlist? ==> forall i :: 0 <= i < |access.endpoints| ==> Printable(access.endpoints[i])
    ensures Lines(Compile(SEATBELT, access)) ==
            match access
            case Deny => PREAMBLE + RuleTexts(RulesOf(access))
            case Allowlist(es) => PREAMBLE + RuleTexts(POLICY) + EndpointLines(MARK, es) + [RuleText(EGRESS)]
  {
    SeatbeltIsWellFormed();
    match access
    case Deny => DenyLines(SEATBELT);
    case Allowlist(es) => AllowlistLines(SEATBELT, es);
  }

  lemma DenyLines(y: Layout)
    requires WellFormed(y)
    ensures Lines(Compile(y, Deny)) == y.header
  {
    LinesUnlines(y.header);
    assert Compile(y, Deny) == Unlines(y.header);
  }

  lemma AllowlistLines(y: Layout, endpoints: seq<(string, nat)>)
    requires WellFormed(y) && forall i :: 0 <= i < |endpoints| ==> Printable(endpoints[i])
    ensures Lines(Compile(y, Allowlist(endpoints))) == y.header + EndpointLines(y.mark, endpoints) + [y.rule]
  {
    EndpointLinesArePlain(y, endpoints);
    CompileIsLines(y, endpoints);
    var all := y.header + EndpointLines(y.mark, endpoints) + [y.rule];
    assert all == y.header + (EndpointLines(y.mark, endpoints) + [y.rule]);
    LinesUnlines(all);
  }
}
