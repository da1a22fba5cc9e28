/**
 * The computations inside `ContentView.swift`: the channels `Color(hex:)` extracts from a hex
 * colour string, and the colour of the connection-status dot. The integer the scanner reads from
 * the trimmed string is an input; channels are the integers before their division by 255.
 */
module ContentView {
  import opened Realtime

  /** Letters and digits; only ASCII ones are modelled. */
  predicate IsAlphanumeric(c: char) {
    ('a' <= c <= 'z') || ('A' <= c <= 'Z') || ('0' <= c <= '9')
  }

  /** How many non-alphanumerics `s` starts with. */
  function LeadingSkip(s: string): (k: nat)
    ensures k <= |s|
    ensures forall i :: 0 <= i < k ==> !IsAlphanumeric(s[i])
    ensures k < |s| ==> IsAlphanumeric(s[k])
  {
    if s == [] || IsAlphanumeric(s[0]) then 0
    else
      var k := LeadingSkip(s[1..]);
      assert forall i :: 1 <= i < k + 1 ==> s[i] == s[1..][i - 1];
      k + 1
  }

  /** The length of `s` without its trailing non-alphanumerics. */
  function TrailingKeep(s: string): (n: nat)
    ensures n <= |s|
    ensures forall i :: n <= i < |s| ==> !IsAlphanumeric(s[i])
    ensures n > 0 ==> IsAlphanumeric(s[n - 1])
  {
    if s == [] || IsAlphanumeric(s[|s| - 1]) then |s|
    else
      var n := TrailingKeep(s[..|s| - 1]);
      assert forall i :: n <= i < |s| - 1 ==> s[i] == s[..|s| - 1][i];
      n
  }

  /** `r` is the slice of `s` at `k`, and only non-alphanumerics lie outside it. */
  predicate TrimmedAt(s: string, r: string, k: int) {
    && 0 <= k <= |s| - |r|
    && r == s[k..k + |r|]
    && (forall i :: 0 <= i < k ==> !IsAlphanumeric(s[i]))
    && (forall i :: k + |r| <= i < |s| ==> !IsAlphanumeric(s[i]))
  }

  /**
   * `trimmingCharacters(in: CharacterSet.alphanumerics.inverted)`: the part of `s` from its first
   * to its last alphanumeric, or nothing when it has none.
   */
  function Trim(s: string): (r: string)
    ensures exists k :: TrimmedAt(s, r, k)
    ensures r != [] ==> IsAlphanumeric(r[0]) && IsAlphanumeric(r[|r| - 1])
  {
    var k := LeadingSkip(s);
    if k == |s| then
      assert TrimmedAt(s, [], k);
      []
    else
      var n := TrailingKeep(s);
      assert k < n;
      assert TrimmedAt(s, s[k..n], k);
      s[k..n]
  }

  /** A string made of alphanumerics only is left as it is. */
  lemma TrimKeepsAlphanumerics(s: string)
    requires forall i :: 0 <= i < |s| ==> IsAlphanumeric(s[i])
    ensures Trim(s) == s
  {
    if s != [] {
      assert LeadingSkip(s) == 0 && TrailingKeep(s) == |s|;
      assert s[0..|s|] == s;
    }
  }

  /** Trimming twice trims no more than trimming once. */
  lemma TrimIdempotent(s: string)
    ensures Trim(Trim(s)) == Trim(s)
  {
    var r := Trim(s);
    if r != [] {
      assert LeadingSkip(r) == 0 && TrailingKeep(r) == |r|;
      assert r[0..|r|] == r;
    }
  }

  /** A colour's alpha, red, green and blue channels. */
  datatype Argb = Argb(a: nat, r: nat, g: nat, b: nat)

  /**
   * The channels for a trimmed string of `digitCount` characters whose scanned value is `v`:
   * 12-bit RGB with each nibble scaled by 17, 24-bit RGB, or 32-bit ARGB; the first two are
   * opaque. Any other length gives the fixed fallback (1, 1, 1, 0).
   */
  function ChannelsFromHex(digitCount: nat, v: nat): (c: Argb)
    ensures digitCount !in {3, 6, 8} ==> c == Argb(1, 1, 1, 0)
    ensures digitCount in {3, 6} ==> c.a == 255
    ensures digitCount == 3 ==> c.r % 17 == 0 && c.g % 17 == 0 && c.b % 17 == 0
  {
    if digitCount == 3 then Argb(255, (v / 0x100) * 17, (v / 0x10 % 0x10) * 17, (v % 0x10) * 17)
    else if digitCount == 6 then Argb(255, v / 0x10000, v / 0x100 % 0x100, v % 0x100)
    else if digitCount == 8 then Argb(v / 0x1000000, v / 0x10000 % 0x100, v / 0x100 % 0x100, v % 0x100)
    else Argb(1, 1, 1, 0)
  }

  /** `Color(hex:)` on `hex`, whose trimmed form the scanner reads as `scanned`. */
  function ColorFromHex(hex: string, scanned: nat): (c: Argb)
    ensures |Trim(hex)| !in {3, 6, 8} ==> c == Argb(1, 1, 1, 0)
  {
    ChannelsFromHex(|Trim(hex)|, scanned)
  }

  predicate ByteChannels(c: Argb) {
    c.a < 0x100 && c.r < 0x100 && c.g < 0x100 && c.b < 0x100
  }

  /** The 32-bit ARGB word of a colour with byte channels. */
  function Pack(c: Argb): (w: nat)
    requires ByteChannels(c)
    ensures w < 0x1_0000_0000
  {
    c.a * 0x1000000 + c.r * 0x10000 + c.g * 0x100 + c.b
  }

  /** A value that fits its digit count gives byte channels. */
  lemma ChannelsInRange(digitCount: nat, v: nat)
    requires digitCount == 3 ==> v < 0x1000
    requires digitCount == 6 ==> v < 0x100_0000
    requires digitCount == 8 ==> v < 0x1_0000_0000
    ensures ByteChannels(ChannelsFromHex(digitCount, v))
  {
  }

  /** Eight digits decode a packed colour back to itself. */
  lemma EightDigitsUnpack(c: Argb)
    requires ByteChannels(c)
    ensures ChannelsFromHex(8, Pack(c)) == c
  {
    var w := Pack(c);
    var low := c.g * 0x100 + c.b;
    assert low < 0x1_0000;
    assert w / 0x100 == c.a * 0x1_0000 + c.r * 0x100 + c.g;
    assert w / 0x1_0000 == c.a * 0x100 + c.r;
    assert w / 0x100_0000 == c.a;
  }

  /** Eight digits lose nothing: the channels pack back to the value. */
  lemma EightDigitsPack(v: nat)
    requires v < 0x1_0000_0000
    ensures Pack(ChannelsFromHex(8, v)) == v
  {
    var q1, q2, q3 := v / 0x100, v / 0x1_0000, v / 0x100_0000;
    assert v == q1 * 0x100 + v % 0x100;
    assert q1 == q2 * 0x100 + q1 % 0x100 && q1 / 0x100 == q2;
    assert q2 == q3 * 0x100 + q2 % 0x100 && q2 / 0x100 == q3;
  }

  /** Six digits are the same colour as eight digits with an opaque `ff` prefixed. */
  lemma SixDigitsAreOpaqueEight(v: nat)
    requires v < 0x100_0000
    ensures ChannelsFromHex(6, v) == ChannelsFromHex(8, 0xff00_0000 + v)
  {
    var c := ChannelsFromHex(6, v);
    ChannelsInRange(6, v);
    EightDigitsPack(v);
    assert Pack(c) == 0xff00_0000 + Pack(ChannelsFromHex(8, v));
    EightDigitsUnpack(c);
  }

  /** The value of the six-digit string that repeats each of three nibbles: `rgb` as `rrggbb`. */
  function DoubledNibbles(v: nat): (w: nat)
    requires v < 0x1000
    ensures w < 0x100_0000
  {
    (v / 0x100) * 0x11_0000 + (v / 0x10 % 0x10) * 0x1100 + (v % 0x10) * 0x11
  }

  /** A three-digit colour is the six-digit colour with every digit written twice. */
  lemma ThreeDigitsAreDoubledSix(v: nat)
    requires v < 0x1000
    ensures ChannelsFromHex(3, v) == ChannelsFromHex(6, DoubledNibbles(v))
  {
    var c := ChannelsFromHex(3, v);
    ChannelsInRange(3, v);
    assert Pack(c) == 0xff00_0000 + DoubledNibbles(v);
    SixDigitsAreOpaqueEight(DoubledNibbles(v));
    EightDigitsUnpack(c);
  }

  /** `String.baseHexPurple`. */
  const BaseHexPurple: string := "#7d60db"

  /** The brand purple trims to its six digits and, read as `0x7d60db`, is opaque (125, 96, 219). */
  lemma BaseHexPurpleChannels()
    ensures Trim(BaseHexPurple) == "7d60db"
    ensures ColorFromHex(BaseHexPurple, 0x7d60db) == Argb(255, 125, 96, 219)
  {
    assert LeadingSkip(BaseHexPurple[1..]) == 0;
    assert LeadingSkip(BaseHexPurple) == 1;
    assert TrailingKeep(BaseHexPurple) == 7;
    assert BaseHexPurple[1..7] == "7d60db";
  }

  datatype StatusColor = Green | Yellow | Red

  /** The connection dot: green when connected, yellow while connecting, red otherwise. */
  function StatusColorOf(status: ConnectionStatus): (c: StatusColor)
    ensures c == Green <==> status == Connected
    ensures c == Yellow <==> status == Connecting
    ensures c == Red <==> status == Disconnected || status == Error
  {
    match status
    case Connected => Green
    case Connecting => Yellow
    case Disconnected => Red
    case Error => Red
  }
}
