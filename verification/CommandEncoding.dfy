/** Command validation and the canonical, length-prefixed encoding whose SHA-256 identifies a command. */
module CommandEncoding {
  import opened RuntimeContract

  datatype EffectiveCommand = EffectiveCommand(argv: seq<Bytes>, timeoutSeconds: nat)

  datatype CommandSizeLimits = CommandSizeLimits(maxElements: nat, maxBytes: nat)

  datatype ValidationCode = Empty | InvalidLength | InvalidFormat | OutOfRange

  const MIN_SECONDS := 1
  const MAX_SECONDS := 300
  const DEFAULT_SECONDS := 30

  function TotalBytes(argv: seq<Bytes>): nat {
    if argv == [] then 0 else TotalBytes(argv[..|argv| - 1]) + |argv[|argv| - 1]|
  }

  /** Element `i` is the first one the check of argv stops at. */
  predicate StopsAt(argv: seq<Bytes>, limits: CommandSizeLimits, i: nat)
    requires i < |argv|
  {
    && (0 in argv[i] || TotalBytes(argv[..i + 1]) > limits.maxBytes)
    && (forall j :: 0 <= j < i ==> 0 !in argv[j])
    && TotalBytes(argv[..i]) <= limits.maxBytes
  }

  /** Too many elements, or the check stops at an element that is one byte sum too many rather than at a NUL byte. */
  predicate TooLarge(argv: seq<Bytes>, limits: CommandSizeLimits) {
    |argv| > limits.maxElements || exists i :: 0 <= i < |argv| && StopsAt(argv, limits, i) && 0 !in argv[i]
  }

  predicate ArgvAccepted(argv: seq<Bytes>, limits: CommandSizeLimits) {
    && 0 < |argv| <= limits.maxElements
    && (forall j :: 0 <= j < |argv| ==> 0 !in argv[j])
    && TotalBytes(argv) <= limits.maxBytes
  }

  lemma {:induction false} TotalBytesMonotone(argv: seq<Bytes>, i: nat)
    requires i <= |argv|
    ensures TotalBytes(argv[..i]) <= TotalBytes(argv)
  {
    if i == |argv| {
      assert argv[..i] == argv;
    } else {
      TotalBytesMonotone(argv[..|argv| - 1], i);
      assert argv[..|argv| - 1][..i] == argv[..i];
    }
  }

  /** The check stops at one element only. */
  lemma StopsOnce(argv: seq<Bytes>, limits: CommandSizeLimits, i: nat, k: nat)
    requires i < k < |argv| && StopsAt(argv, limits, i)
    ensures !StopsAt(argv, limits, k)
  {
    TotalBytesMonotone(argv[..k], i + 1);
    assert argv[..k][..i + 1] == argv[..i + 1];
  }

  /** Within the byte ceiling and without NUL bytes the check does not stop. */
  lemma StopsNowhere(argv: seq<Bytes>, limits: CommandSizeLimits)
    requires TotalBytes(argv) <= limits.maxBytes && forall j :: 0 <= j < |argv| ==> 0 !in argv[j]
    ensures forall i :: 0 <= i < |argv| ==> !StopsAt(argv, limits, i)
  {
    forall i | 0 <= i < |argv|
      ensures !StopsAt(argv, limits, i)
    {
      TotalBytesMonotone(argv, i + 1);
    }
  }

  lemma StopsOnlyAt(argv: seq<Bytes>, limits: CommandSizeLimits, i: nat)
    requires i < |argv| && StopsAt(argv, limits, i)
    ensures forall k :: 0 <= k < |argv| && StopsAt(argv, limits, k) ==> k == i
  {
    forall k | 0 <= k < |argv| && StopsAt(argv, limits, k)
      ensures k == i
    {
      if i < k {
        StopsOnce(argv, limits, i, k);
      } else if k < i {
        StopsOnce(argv, limits, k, i);
      }
    }
  }

  /** `EffectiveCommand::validate`. A command is accepted exactly when argv is nonempty, within both ceilings and
      free of NUL bytes and the timeout is in range; it is then unchanged, and each refusal names its cause. */
  method Validate(argv: seq<Bytes>, timeout: Option<nat>, limits: CommandSizeLimits)
    returns (r: Result<EffectiveCommand, ValidationCode>)
    ensures r.Success? <==>
            ArgvAccepted(argv, limits) && (timeout.Some? ==> MIN_SECONDS <= timeout.value <= MAX_SECONDS)
    ensures r.Success? ==>
            r.value == EffectiveCommand(argv, if timeout.Some? then timeout.value else DEFAULT_SECONDS)
    ensures r == Failure(Empty) <==> argv == []
    ensures r == Failure(OutOfRange) <==>
            ArgvAccepted(argv, limits) && timeout.Some? && !(MIN_SECONDS <= timeout.value <= MAX_SECONDS)
    ensures r == Failure(InvalidFormat) <==>
            0 < |argv| <= limits.maxElements && exists i :: 0 <= i < |argv| && StopsAt(argv, limits, i) && 0 in argv[i]
    ensures r == Failure(InvalidLength) <==> TooLarge(argv, limits)
  {
    if argv == [] {
      return Failure(Empty);
    }
    if |argv| > limits.maxElements {
      return Failure(InvalidLength);
    }
    var bytes := 0;
    for i := 0 to |argv|
      invariant bytes == TotalBytes(argv[..i]) <= limits.maxBytes
      invariant forall j :: 0 <= j < i ==> 0 !in argv[j]
    {
      assert argv[..i + 1][..i] == argv[..i];
      TotalBytesMonotone(argv, i + 1);
      if 0 in argv[i] {
        StopsOnlyAt(argv, limits, i);
        return Failure(InvalidFormat);
      }
      bytes := bytes + |argv[i]|;
      if bytes > limits.maxBytes {
        StopsOnlyAt(argv, limits, i);
        return Failure(InvalidLength);
      }
    }
    assert argv[..|argv|] == argv;
    StopsNowhere(argv, limits);
    var seconds := if timeout.Some? then timeout.value else DEFAULT_SECONDS;
    if !(MIN_SECONDS <= seconds <= MAX_SECONDS) {
      return Failure(OutOfRange);
    }
    return Success(EffectiveCommand(argv, seconds));
  }

  /** The `k` big-endian bytes of `n`. */
  function BigEndian(n: nat, k: nat): (r: Bytes)
    ensures |r| == k
  {
    if k == 0 then [] else BigEndian(n / 256, k - 1) + [n % 256]
  }

  function FromBigEndian(b: Bytes): nat {
    if b == [] then 0 else FromBigEndian(b[..|b| - 1]) * 256 + b[|b| - 1]
  }

  function Pow256(k: nat): nat {
    if k == 0 then 1 else 256 * Pow256(k - 1)
  }

  lemma {:induction false} BigEndianRoundTrip(n: nat, k: nat)
    requires n < Pow256(k)
    ensures FromBigEndian(BigEndian(n, k)) == n
  {
    if k > 0 {
      BigEndianRoundTrip(n / 256, k - 1);
      assert BigEndian(n, k)[..k - 1] == BigEndian(n / 256, k - 1);
    }
  }

  lemma U64RoundTrip(n: nat)
    requires n <= U64_MAX
    ensures FromBigEndian(BigEndian(ToU64(n), 8)) == n
  {
    assert Pow256(2) == 0x1_0000;
    assert Pow256(4) == 0x1_0000_0000;
    assert Pow256(6) == 0x1_0000_0000_0000;
    assert Pow256(8) == U64_MAX + 1;
    BigEndianRoundTrip(n, 8);
  }

  /** `openbox.command.v1` followed by a NUL byte. */
  const DOMAIN: Bytes := [111, 112, 101, 110, 98, 111, 120, 46, 99, 111, 109, 109, 97, 110, 100, 46, 118, 49, 0]

  function EncodeArgs(argv: seq<Bytes>): Bytes {
    if argv == [] then [] else BigEndian(ToU64(|argv[0]|), 8) + argv[0] + EncodeArgs(argv[1..])
  }

  /** The bytes fed to the hasher. */
  function Encode(c: EffectiveCommand): Bytes {
    DOMAIN + BigEndian(ToU64(|c.argv|), 8) + EncodeArgs(c.argv) + BigEndian(c.timeoutSeconds, 2)
  }

  lemma Regroup(a: Bytes, b: Bytes, c: Bytes, d: Bytes)
    ensures a + b + c + d == a + (b + c + d)
  {
  }

  /** `EffectiveCommand::digest` up to the hash itself: the loop that feeds the hasher. */
  method FeedHasher(c: EffectiveCommand) returns (fed: Bytes)
    ensures fed == Encode(c)
  {
    fed := DOMAIN + BigEndian(ToU64(|c.argv|), 8);
    var i := 0;
    while i < |c.argv|
      invariant 0 <= i <= |c.argv|
      invariant fed + EncodeArgs(c.argv[i..]) == DOMAIN + BigEndian(ToU64(|c.argv|), 8) + EncodeArgs(c.argv)
    {
      assert c.argv[i..][0] == c.argv[i] && c.argv[i..][1..] == c.argv[i + 1..];
      Regroup(fed, BigEndian(ToU64(|c.argv[i]|), 8), c.argv[i], EncodeArgs(c.argv[i + 1..]));
      fed := fed + BigEndian(ToU64(|c.argv[i]|), 8) + c.argv[i];
      i := i + 1;
    }
    fed := fed + BigEndian(c.timeoutSeconds, 2);
  }

  /** Reads `count` length-prefixed elements off the front. */
  function DecodeArgs(b: Bytes, count: nat): Option<(seq<Bytes>, Bytes)> {
    if count == 0 then Some(([], b))
    else if |b| < 8 then None
    else
      var n := FromBigEndian(b[..8]);
      if |b| < 8 + n then None
      else match DecodeArgs(b[8 + n..], count - 1)
        case None => None
        case Some((rest, tail)) => Some(([b[8..8 + n]] + rest, tail))
  }

  function Decode(b: Bytes): Option<EffectiveCommand> {
    if |b| < |DOMAIN| + 8 || b[..|DOMAIN|] != DOMAIN then None
    else match DecodeArgs(b[|DOMAIN| + 8..], FromBigEndian(b[|DOMAIN|..|DOMAIN| + 8]))
      case None => None
      case Some((argv, tail)) => if |tail| != 2 then None else Some(EffectiveCommand(argv, FromBigEndian(tail)))
  }

  /** What a Rust value of this type can hold: lengths fit 64 bits, the timeout 16. */
  predicate Representable(c: EffectiveCommand) {
    && |c.argv| <= U64_MAX && c.timeoutSeconds < 0x1_0000
    && forall i :: 0 <= i < |c.argv| ==> |c.argv[i]| <= U64_MAX
  }

  lemma Sections(a: Bytes, b: Bytes, c: Bytes)
    ensures (a + b + c)[..|a|] == a && (a + b + c)[|a|..|a| + |b|] == b && (a + b + c)[|a| + |b|..] == c
  {
  }

  lemma {:induction false} DecodeArgsInverts(argv: seq<Bytes>, tail: Bytes)
    requires forall i :: 0 <= i < |argv| ==> |argv[i]| <= U64_MAX
    ensures DecodeArgs(EncodeArgs(argv) + tail, |argv|) == Some((argv, tail))
  {
    if argv == [] {
      assert EncodeArgs(argv) + tail == tail;
    } else {
      var b := EncodeArgs(argv) + tail;
      U64RoundTrip(|argv[0]|);
      assert b == BigEndian(ToU64(|argv[0]|), 8) + argv[0] + (EncodeArgs(argv[1..]) + tail);
      Sections(BigEndian(ToU64(|argv[0]|), 8), argv[0], EncodeArgs(argv[1..]) + tail);
      DecodeArgsInverts(argv[1..], tail);
      assert [argv[0]] + argv[1..] == argv;
    }
  }

  /** The encoding loses nothing: decoding gives the command back, empty elements included. */
  lemma DecodeInverts(c: EffectiveCommand)
    requires Representable(c)
    ensures Decode(Encode(c)) == Some(c)
  {
    var b := Encode(c);
    var tail := BigEndian(c.timeoutSeconds, 2);
    U64RoundTrip(|c.argv|);
    assert b[|DOMAIN|..|DOMAIN| + 8] == BigEndian(ToU64(|c.argv|), 8);
    assert b[|DOMAIN| + 8..] == EncodeArgs(c.argv) + tail;
    DecodeArgsInverts(c.argv, tail);
    assert Pow256(2) == 0x1_0000;
    BigEndianRoundTrip(c.timeoutSeconds, 2);
  }

  /** With an ideal hash, two commands have the same digest exactly when they are the same command. */
  lemma EncodeInjective(c: EffectiveCommand, d: EffectiveCommand)
    requires Representable(c) && Representable(d)
    ensures Encode(c) == Encode(d) <==> c == d
  {
    DecodeInverts(c);
    DecodeInverts(d);
  }
}
