/** The two codes that identify a generated "Factura"
    (`src/utils/dteGenerator.ts`): the generation code, a version-4 UUID,
    and the control number. The random draws and the clock reading they
    consume are parameters. */
module DteCodes {
  import opened Wrappers
  import opened Text

  /** One draw of `Math.random() * 16 | 0`. */
  type Nibble = n: nat | n < 16

  /** `(r & 0x3 | 0x8)`: the two high bits of the variant nibble become
      `10`, the two low bits are kept. */
  function VariantNibble(r: Nibble): (v: Nibble)
    ensures v / 4 == 2 && v % 4 == r % 4
  {
    ((r as bv8 & 3) | 8) as int
  }

  /** `v.toString(16).toUpperCase()` for one nibble. */
  function HexDigit(v: Nibble): (c: char)
    ensures IsUpperHex(c)
  {
    if v < 10 then ('0' as int + v) as char else ('A' as int + v - 10) as char
  }

  predicate IsUpperHex(c: char) {
    '0' <= c <= '9' || 'A' <= c <= 'F'
  }

  /** The number an upper-case hexadecimal digit stands for. */
  function HexValue(c: char): (v: Nibble)
    requires IsUpperHex(c)
  {
    if c <= '9' then c as int - '0' as int else c as int - 'A' as int + 10
  }

  /** Reading a printed nibble back gives the nibble. */
  lemma HexRoundTrip(v: Nibble)
    ensures HexValue(HexDigit(v)) == v
  {
  }

  const UuidTemplate: string := "xxxxxxxx-xxxx-4xxx-yxxx-xxxxxxxxxxxx"

  predicate IsPlaceholder(c: char) {
    c == 'x' || c == 'y'
  }

  /** How many characters of `t` the callback rewrites, that is, how
      many draws it takes. */
  function Placeholders(t: string): nat {
    if t == [] then 0 else Placeholders(t[..|t| - 1]) + (if IsPlaceholder(t[|t| - 1]) then 1 else 0)
  }

  /** The callback of `replace`, for template character `c` and draw `v`. */
  function Replace(c: char, v: Nibble): char {
    if c == 'x' then HexDigit(v) else if c == 'y' then HexDigit(VariantNibble(v)) else c
  }

  /** `t.replace(/[xy]/g, ...)`, where `draw(k)` is the k-th call of
      `Math.random() * 16 | 0`: the placeholder at position `i` takes the
      draw numbered by the placeholders before it, each `x` prints it in
      hexadecimal, each `y` with its variant bits set, and every other
      character is kept. */
  function Fill(t: string, draw: nat -> Nibble): (r: string)
    ensures |r| == |t|
    ensures forall i :: 0 <= i < |t| && !IsPlaceholder(t[i]) ==> r[i] == t[i]
    ensures forall i :: 0 <= i < |t| && t[i] == 'x' ==> IsUpperHex(r[i])
    ensures forall i :: 0 <= i < |t| && t[i] == 'y' ==> IsUpperHex(r[i]) && HexValue(r[i]) / 4 == 2
    decreases |t|
  {
    if t == [] then []
    else
      var init := t[..|t| - 1];
      Fill(init, draw) + [Replace(t[|t| - 1], draw(Placeholders(init)))]
  }

  /** The draws are taken in order: the character at position `i` is
      rewritten with the draw numbered by the placeholders before it. */
  lemma {:induction false} FillDrawOrder(t: string, draw: nat -> Nibble)
    ensures forall i :: 0 <= i < |t| ==> Fill(t, draw)[i] == Replace(t[i], draw(Placeholders(t[..i])))
    decreases |t|
  {
    if t != [] {
      var init := t[..|t| - 1];
      FillDrawOrder(init, draw);
      var r := Fill(t, draw);
      assert r == Fill(init, draw) + [Replace(t[|t| - 1], draw(Placeholders(init)))];
      forall i | 0 <= i < |t|
        ensures r[i] == Replace(t[i], draw(Placeholders(t[..i])))
      {
        if i < |init| {
          assert init[..i] == t[..i];
          assert r[i] == Fill(init, draw)[i];
        } else {
          assert t[..i] == init;
        }
      }
    }
  }

  /** The template's shape: dashes at 8, 13, 18 and 23, the version digit
      at 14, the variant placeholder at 19, `x` everywhere else. */
  predicate UuidShaped(t: string) {
    && |t| == 36
    && t[8] == '-' && t[13] == '-' && t[18] == '-' && t[23] == '-'
    && t[14] == '4' && t[19] == 'y'
    && forall i :: 0 <= i < 36 && i !in {8, 13, 14, 18, 19, 23} ==> t[i] == 'x'
  }

  lemma UuidTemplateShaped()
    ensures UuidShaped(UuidTemplate)
  {
  }

  /** Filling a template of that shape gives the version-4 layout. */
  lemma FillUuidShaped(t: string, draw: nat -> Nibble)
    requires UuidShaped(t)
    ensures var u := Fill(t, draw);
      && |u| == 36
      && u[8] == '-' && u[13] == '-' && u[18] == '-' && u[23] == '-'
      && u[14] == '4'
      && IsUpperHex(u[19]) && HexValue(u[19]) / 4 == 2
      && (forall i :: 0 <= i < 36 && i !in {8, 13, 14, 18, 23} ==> IsUpperHex(u[i]))
  {
  }

  /** `generateUUID()`: the layout of a version-4 UUID of section 4.4 of
      RFC 4122 (version nibble 4), with the variant bits `10` of section
      4.1.1, in upper-case hexadecimal. */
  function GenerateUuid(draw: nat -> Nibble): (u: string)
    ensures |u| == 36
    ensures u[8] == '-' && u[13] == '-' && u[18] == '-' && u[23] == '-'
    ensures u[14] == '4'
    ensures IsUpperHex(u[19]) && HexValue(u[19]) / 4 == 2
    ensures u[19] in {'8', '9', 'A', 'B'}
    ensures forall i :: 0 <= i < 36 && i !in {8, 13, 14, 18, 23} ==> IsUpperHex(u[i])
  {
    UuidTemplateShaped();
    FillUuidShaped(UuidTemplate, draw);
    Fill(UuidTemplate, draw)
  }

  /** `generateNumeroControl()`, given `Date.now()` and the text of
      `Math.random().toString(36)`: "DTE-01-", up to eight upper-cased
      characters of the random text after its "0.", a dash, and the clock
      reading without its first three digits. */
  function GenerateNumeroControl(nowMillis: nat, randomBase36: string): (r: string)
    ensures |r| >= 8 && r[..7] == "DTE-01-"
    ensures |r| <= 16 + |NatToString(nowMillis)|
  {
    var timestamp := NatToString(nowMillis);
    var random := ToUpper(Substring(randomBase36, 2, 10));
    "DTE-01-" + random + "-" + Substring(timestamp, 3, |timestamp|)
  }

  /** Reads a control number back into its random part and its clock part. */
  function ParseNumeroControl(s: string): (r: Option<(string, string)>)
    ensures r.Some? ==> s == "DTE-01-" + r.value.0 + "-" + r.value.1 && '-' !in r.value.0
  {
    if |s| >= 7 && s[..7] == "DTE-01-" then
      var rest := s[7..];
      var random := BeforeFirst(rest, '-');
      if |random| < |rest| then
        var tail := rest[|random| + 1..];
        PrefixThenSplit(s, "DTE-01-", '-');
        Some((random, tail))
      else None
    else None
  }

  /** A text that opens with `p` and holds `c` after it is `p`, the text up
      to the first `c`, the `c` and the rest. */
  lemma PrefixThenSplit(s: string, p: string, c: char)
    requires |p| <= |s| && s[..|p|] == p
    requires |BeforeFirst(s[|p|..], c)| < |s| - |p|
    ensures var rest := s[|p|..];
      var head := BeforeFirst(rest, c);
      s == p + head + [c] + rest[|head| + 1..]
  {
    var rest := s[|p|..];
    var head := BeforeFirst(rest, c);
    PrefixAndRest(s, p);
    SplitAtFirst(rest, c);
    Regroup(s, p, rest, head, c, rest[|head| + 1..]);
  }

  lemma PrefixAndRest(s: string, p: string)
    requires |p| <= |s| && s[..|p|] == p
    ensures s == p + s[|p|..]
  {
  }

  /** A text holding `c` is the text before its first `c`, the `c` and
      the rest. */
  lemma SplitAtFirst(s: string, c: char)
    requires |BeforeFirst(s, c)| < |s|
    ensures var head := BeforeFirst(s, c);
      s == head + [c] + s[|head| + 1..]
  {
    var head := BeforeFirst(s, c);
    var k := |head|;
    assert head == s[..k];
    assert s[k] == c;
    assert s == s[..k] + [s[k]] + s[k + 1..];
  }

  lemma Regroup(s: string, p: string, rest: string, a: string, c: char, b: string)
    requires s == p + rest && rest == a + [c] + b
    ensures s == p + a + [c] + b
  {
  }

  /** A control number splits back into the upper-cased random part and the
      clock digits after the first three, as long as the random text has no
      dash (base-36 text never has one). */
  lemma NumeroControlRoundTrip(nowMillis: nat, randomBase36: string)
    requires '-' !in randomBase36
    ensures var timestamp := NatToString(nowMillis);
      ParseNumeroControl(GenerateNumeroControl(nowMillis, randomBase36))
      == Some((ToUpper(Substring(randomBase36, 2, 10)), Substring(timestamp, 3, |timestamp|)))
  {
    var timestamp := NatToString(nowMillis);
    var random := ToUpper(Substring(randomBase36, 2, 10));
    var stamp := Substring(timestamp, 3, |timestamp|);
    var s := GenerateNumeroControl(nowMillis, randomBase36);
    assert s[7..] == random + "-" + stamp;
    assert '-' !in random by {
      forall i | 0 <= i < |random|
        ensures random[i] != '-'
      {
        assert Substring(randomBase36, 2, 10)[i] in randomBase36;
      }
    }
    BeforeFirstPrefix(random, stamp, '-');
  }
}
