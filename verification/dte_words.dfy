/** Amount in Spanish words as the DTE generator writes it
    (`numeroALetras` and `numeroALetrasSimple` in src/utils/dteGenerator.ts).
    This copy has no "VEINTI" contraction: 21 is "VEINTE Y UNO". */
module DteWords {
  import opened Text

  const Unidades: seq<string> :=
    ["", "UNO", "DOS", "TRES", "CUATRO", "CINCO", "SEIS", "SIETE", "OCHO", "NUEVE"]
  const Especiales: seq<string> :=
    ["DIEZ", "ONCE", "DOCE", "TRECE", "CATORCE", "QUINCE", "DIECISÉIS", "DIECISIETE", "DIECIOCHO", "DIECINUEVE"]
  const Decenas: seq<string> :=
    ["", "", "VEINTE", "TREINTA", "CUARENTA", "CINCUENTA", "SESENTA", "SETENTA", "OCHENTA", "NOVENTA"]
  const Centenas: seq<string> :=
    ["", "CIENTO", "DOSCIENTOS", "TRESCIENTOS", "CUATROCIENTOS", "QUINIENTOS", "SEISCIENTOS",
     "SETECIENTOS", "OCHOCIENTOS", "NOVECIENTOS"]

  /** Words for 0..999; the empty string for 0; decimal digits from 1000 on. */
  function NumeroALetrasSimple(n: nat): (r: string)
    ensures r == "" <==> n == 0
  {
    if n == 0 then ""
    else if n < 10 then Unidades[n]
    else if n < 100 then
      if n < 20 then Especiales[n - 10]
      else Decenas[n / 10] + (if n % 10 > 0 then " Y " + NumeroALetrasSimple(n % 10) else "")
    else if n < 1000 then
      if n == 100 then "CIEN"
      else Centenas[n / 100] + (if n % 100 > 0 then " " + NumeroALetrasSimple(n % 100) else "")
    else NatToString(n)
  }

  /** `Math.floor(numero)` for a non-negative amount. */
  function IntegerPart(numero: real): (e: nat)
    requires numero >= 0.0
    ensures e as real <= numero < e as real + 1.0
  {
    numero.Floor
  }

  /** `Math.round((numero - entero) * 100)`: cents rounded half up. A
      fraction of .995 or more rounds to 100. */
  function Cents(numero: real): (c: nat)
    requires numero >= 0.0
    ensures c <= 100
    ensures c as real - 0.5 <= (numero - IntegerPart(numero) as real) * 100.0 < c as real + 0.5
  {
    ((numero - IntegerPart(numero) as real) * 100.0 + 0.5).Floor
  }

  /** What `numeroALetras` appends for the integer part: the thousands
      with " MIL ", then the rest when it is not zero, each followed by a
      space. */
  function EnteroText(entero: nat): (r: string)
    ensures |r| > 0 && r[|r| - 1] == ' '
    ensures entero == 0 ==> r == " "
  {
    if entero >= 1000 then
      NumeroALetrasSimple(entero / 1000) + " MIL " +
      (if entero % 1000 > 0 then NumeroALetrasSimple(entero % 1000) + " " else "")
    else NumeroALetrasSimple(entero) + " "
  }

  /** The currency word: singular only for exactly one. */
  function Moneda(entero: nat): string
  {
    if entero == 1 then "DÓLAR" else "DÓLARES"
  }

  /** The cents word: singular only for exactly one. */
  function CentWord(centavos: nat): string
  {
    if centavos == 1 then "CENTAVO" else "CENTAVOS"
  }

  /** What `numeroALetras` appends for the cents: nothing for none. */
  function CentavosText(centavos: nat): (r: string)
    ensures r == "" <==> centavos == 0
    ensures centavos > 0 ==> " CON " <= r
    ensures centavos == 1 ==> r == " CON UNO CENTAVO"
  {
    if centavos > 0 then " CON " + NumeroALetrasSimple(centavos) + " " + CentWord(centavos)
    else ""
  }

  /** The text `numeroALetras` accumulates for integer part `entero` and
      cents `centavos`. */
  function AmountWords(entero: nat, centavos: nat): (r: string)
    ensures EnteroText(entero) <= r
    ensures centavos == 0 ==> r == EnteroText(entero) + Moneda(entero)
  {
    EnteroText(entero) + Moneda(entero) + CentavosText(centavos)
  }

  /** `numeroALetras(numero)` for a non-negative amount. */
  function NumeroALetras(numero: real): (r: string)
    requires numero >= 0.0
    ensures numero == 0.0 ==> r == "CERO DÓLARES"
    ensures numero > 0.0 && Cents(numero) == 0 ==> r == EnteroText(IntegerPart(numero)) + Moneda(IntegerPart(numero))
  {
    if numero == 0.0 then "CERO DÓLARES"
    else AmountWords(IntegerPart(numero), Cents(numero))
  }

  /** One hundred is written "CIEN", with the plural currency word. */
  lemma NumeroALetrasCien()
    ensures NumeroALetras(100.0) == "CIEN DÓLARES"
  {
    assert IntegerPart(100.0) == 100 && Cents(100.0) == 0;
  }

  /** One dollar takes the singular currency word. */
  lemma NumeroALetrasOneDollar()
    ensures NumeroALetras(1.0) == "UNO DÓLAR"
  {
    assert IntegerPart(1.0) == 1 && Cents(1.0) == 0;
  }
}

/** A reading of the generated words back into numbers: the reference
    the converter is checked against. Each word denotes a value (units,
    teens, tens, hundreds, "CIEN", digit strings, and "Y" for nothing);
    a group's value is the sum of its words; "MIL" multiplies the group
    before it by 1000; "DÓLAR"/"DÓLARES" ends the integer part; an
    optional "CON <group> CENTAVO(S)" gives the cents. Singular and
    plural must agree with the value. */
module DteWordsReading {
  import opened Wrappers
  import opened Text
  import opened DteWords

  /** `s.split(c)`: the pieces between separators. */
  function Split(s: string, c: char): (r: seq<string>)
    ensures |r| >= 1
  {
    if s == [] then [""]
    else if s[0] == c then [""] + Split(s[1..], c)
    else
      var t := Split(s[1..], c);
      [[s[0]] + t[0]] + t[1..]
  }

  lemma {:induction false} SplitNoSeparator(w: string, c: char)
    requires c !in w
    ensures Split(w, c) == [w]
  {
    if w != [] {
      SplitNoSeparator(w[1..], c);
      assert [w[0]] + w[1..] == w;
    }
  }

  /** Splitting a joined string gives the pieces of both halves. */
  lemma {:induction false} SplitJoin(a: string, b: string, c: char)
    ensures Split(a + [c] + b, c) == Split(a, c) + Split(b, c)
  {
    if a == [] {
      assert a + [c] + b == [c] + b;
      assert ([c] + b)[1..] == b;
    } else {
      assert (a + [c] + b)[0] == a[0];
      assert (a + [c] + b)[1..] == a[1..] + [c] + b;
      SplitJoin(a[1..], b, c);
    }
  }

  // The reading's own vocabulary, spelled out independently of the
  // converter's tables.
  const UnitWords: map<string, nat> := map[
    "UNO" := 1, "DOS" := 2, "TRES" := 3, "CUATRO" := 4, "CINCO" := 5,
    "SEIS" := 6, "SIETE" := 7, "OCHO" := 8, "NUEVE" := 9]
  const TeenWords: map<string, nat> := map[
    "DIEZ" := 10, "ONCE" := 11, "DOCE" := 12, "TRECE" := 13, "CATORCE" := 14,
    "QUINCE" := 15, "DIECISÉIS" := 16, "DIECISIETE" := 17, "DIECIOCHO" := 18, "DIECINUEVE" := 19]
  const TensWords: map<string, nat> := map[
    "VEINTE" := 20, "TREINTA" := 30, "CUARENTA" := 40, "CINCUENTA" := 50,
    "SESENTA" := 60, "SETENTA" := 70, "OCHENTA" := 80, "NOVENTA" := 90]
  const HundredsWords: map<string, nat> := map[
    "CIEN" := 100, "CIENTO" := 100, "DOSCIENTOS" := 200, "TRESCIENTOS" := 300,
    "CUATROCIENTOS" := 400, "QUINIENTOS" := 500, "SEISCIENTOS" := 600,
    "SETECIENTOS" := 700, "OCHOCIENTOS" := 800, "NOVECIENTOS" := 900]

  predicate AllDigits(t: string) {
    t != [] && forall i :: 0 <= i < |t| ==> IsDigit(t[i])
  }

  /** The value one word denotes ("Y" denotes nothing, a decimal numeral
      its value), or None for a word that is not a number. */
  function TokenValue(t: string): Option<nat>
  {
    if t == "Y" then Some(0)
    else if t in UnitWords then Some(UnitWords[t])
    else if t in TeenWords then Some(TeenWords[t])
    else if t in TensWords then Some(TensWords[t])
    else if t in HundredsWords then Some(HundredsWords[t])
    else if AllDigits(t) then Some(DigitsValue(t))
    else None
  }

  /** The sum of a group of number words; None if one is not a number. */
  function GroupValue(ts: seq<string>): Option<nat>
  {
    if ts == [] then Some(0)
    else
      match TokenValue(ts[0])
      case None => None
      case Some(v) =>
        match GroupValue(ts[1..])
        case None => None
        case Some(w) => Some(v + w)
  }

  lemma {:induction false} GroupValueAppend(xs: seq<string>, ys: seq<string>, x: nat, y: nat)
    requires GroupValue(xs) == Some(x) && GroupValue(ys) == Some(y)
    ensures GroupValue(xs + ys) == Some(x + y)
  {
    if xs == [] {
      assert xs + ys == ys;
    } else {
      assert (xs + ys)[0] == xs[0];
      assert (xs + ys)[1..] == xs[1..] + ys;
      var v := TokenValue(xs[0]).value;
      GroupValueAppend(xs[1..], ys, x - v, y);
    }
  }

  lemma {:induction false} GroupValuedWords(ts: seq<string>, i: nat)
    requires GroupValue(ts).Some? && i < |ts|
    ensures TokenValue(ts[i]).Some?
  {
    if i > 0 {
      GroupValuedWords(ts[1..], i - 1);
    }
  }

  /** The first position in `ts` holding one of `words`. */
  function FirstOf(ts: seq<string>, words: set<string>): (r: Option<nat>)
    ensures r.Some? ==> r.value < |ts| && ts[r.value] in words
  {
    if ts == [] then None
    else if ts[0] in words then Some(0)
    else
      match FirstOf(ts[1..], words)
      case None => None
      case Some(k) => Some(k + 1)
  }

  lemma {:induction false} FirstOfAfter(a: seq<string>, w: string, b: seq<string>, words: set<string>)
    requires w in words
    requires forall i :: 0 <= i < |a| ==> a[i] !in words
    ensures FirstOf(a + [w] + b, words) == Some(|a|)
  {
    if a == [] {
      assert (a + [w] + b)[0] == w;
    } else {
      assert (a + [w] + b)[0] == a[0];
      assert (a + [w] + b)[1..] == a[1..] + [w] + b;
      FirstOfAfter(a[1..], w, b, words);
    }
  }

  lemma {:induction false} FirstOfNone(a: seq<string>, words: set<string>)
    requires forall i :: 0 <= i < |a| ==> a[i] !in words
    ensures FirstOf(a, words) == None
  {
    if a != [] {
      FirstOfNone(a[1..], words);
    }
  }

  const Currency: set<string> := {"DÓLAR", "DÓLARES"}
  const Thousand: set<string> := {"MIL"}

  /** The integer part: `<group> MIL <group>` or `<group>`. */
  function IntegerValue(ts: seq<string>): Option<nat>
  {
    match FirstOf(ts, Thousand)
    case None => GroupValue(ts)
    case Some(k) =>
      match (GroupValue(ts[..k]), GroupValue(ts[k + 1..]))
      case (Some(m), Some(r)) => Some(1000 * m + r)
      case _ => None
  }

  /** The cents part after the currency word: nothing (no cents), or
      "CON <group> CENTAVO(S)" with a non-zero group whose number agrees
      with the word. */
  function ReadCents(rest: seq<string>): Option<nat>
  {
    if rest == [] then Some(0)
    else if |rest| >= 3 && rest[0] == "CON" && rest[|rest| - 1] in {"CENTAVO", "CENTAVOS"} then
      match GroupValue(rest[1..|rest| - 1])
      case None => None
      case Some(c) =>
        if c > 0 && (rest[|rest| - 1] == "CENTAVO") == (c == 1) then Some(c) else None
    else None
  }

  /** The amount (integer part, cents) that a text of the converter's
      shape states, or None. The currency word must agree in number with
      the integer part. */
  function ReadAmount(s: string): Option<(nat, nat)>
  {
    var ts := Split(s, ' ');
    match FirstOf(ts, Currency)
    case None => None
    case Some(d) =>
      match IntegerValue(ts[..d])
      case None => None
      case Some(entero) =>
        if (ts[d] == "DÓLAR") != (entero == 1) then None
        else
          match ReadCents(ts[d + 1..])
          case None => None
          case Some(c) => Some((entero, c))
  }

  // ---- The words of each table read back as their value ----

  lemma UnitWord(k: nat)
    requires 1 <= k <= 9
    ensures TokenValue(Unidades[k]) == Some(k) && ' ' !in Unidades[k]
  {
  }

  lemma TeenWordLow(k: nat)
    requires 0 <= k <= 4
    ensures TokenValue(Especiales[k]) == Some(10 + k) && ' ' !in Especiales[k]
  {
  }

  lemma TeenWordHigh(k: nat)
    requires 5 <= k <= 9
    ensures TokenValue(Especiales[k]) == Some(10 + k) && ' ' !in Especiales[k]
  {
  }

  lemma TensWordLow(k: nat)
    requires 2 <= k <= 5
    ensures TokenValue(Decenas[k]) == Some(10 * k) && ' ' !in Decenas[k]
  {
  }

  lemma TensWordHigh(k: nat)
    requires 6 <= k <= 9
    ensures TokenValue(Decenas[k]) == Some(10 * k) && ' ' !in Decenas[k]
  {
  }

  lemma HundredsWordLow(k: nat)
    requires 1 <= k <= 3
    ensures TokenValue(Centenas[k]) == Some(100 * k) && ' ' !in Centenas[k]
  {
  }

  lemma HundredsWordMid(k: nat)
    requires 4 <= k <= 6
    ensures TokenValue(Centenas[k]) == Some(100 * k) && ' ' !in Centenas[k]
  {
  }

  lemma HundredsWordHigh(k: nat)
    requires 7 <= k <= 9
    ensures TokenValue(Centenas[k]) == Some(100 * k) && ' ' !in Centenas[k]
  {
  }

  /** The words that are not numbers: markers of the amount's structure. */
  lemma ThousandWord()
    ensures TokenValue("MIL") == None
  {
    assert !IsDigit('M');
  }

  lemma ConWord()
    ensures TokenValue("CON") == None
  {
    assert !IsDigit('C');
  }

  lemma CurrencyWords()
    ensures TokenValue("DÓLAR") == None && TokenValue("DÓLARES") == None
  {
    assert !IsDigit('D');
  }

  lemma CentWords()
    ensures TokenValue("CENTAVO") == None && TokenValue("CENTAVOS") == None
  {
    assert !IsDigit('C');
  }

  // ---- Groups: texts whose words add up to a value ----

  /** A word without spaces reads as its own value. */
  lemma WordGroup(w: string, v: nat)
    requires ' ' !in w && TokenValue(w) == Some(v)
    ensures GroupValue(Split(w, ' ')) == Some(v)
  {
    SplitNoSeparator(w, ' ');
    assert [w][1..] == [];
  }

  /** Joining two texts with a space adds their values. */
  lemma GroupJoin(a: string, b: string, x: nat, y: nat)
    requires GroupValue(Split(a, ' ')) == Some(x) && GroupValue(Split(b, ' ')) == Some(y)
    ensures GroupValue(Split(a + [' '] + b, ' ')) == Some(x + y)
  {
    SplitJoin(a, b, ' ');
    GroupValueAppend(Split(a, ' '), Split(b, ' '), x, y);
  }

  /** Every word of the vocabulary starts with a letter. */
  lemma DigitLedNotWord(t: string)
    requires t != [] && IsDigit(t[0])
    ensures t != "Y" && t !in UnitWords && t !in TeenWords && t !in TensWords && t !in HundredsWords
  {
  }

  /** A decimal numeral read as a word is its value. */
  lemma NumeralWord(n: nat)
    ensures ' ' !in NatToString(n)
    ensures TokenValue(NatToString(n)) == Some(n)
  {
    var s := NatToString(n);
    DigitLedNotWord(s);
    NatToStringRoundTrip(n);
  }

  /** The words for 1..19: one table word. (The word is returned rather
      than named, which keeps the table's contents out of the caller's
      proof.) */
  lemma SmallPiece(n: nat) returns (w: string)
    requires 1 <= n < 20
    ensures NumeroALetrasSimple(n) == w
    ensures GroupValue(Split(w, ' ')) == Some(n)
  {
    if n < 10 {
      w := Unidades[n];
      UnitWord(n);
    } else if n < 15 {
      w := Especiales[n - 10];
      TeenWordLow(n - 10);
    } else {
      w := Especiales[n - 10];
      TeenWordHigh(n - 10);
    }
    WordGroup(w, n);
  }

  /** The word for the tens of 20..99. */
  lemma TensPiece(k: nat) returns (d: string)
    requires 2 <= k <= 9
    ensures d == Decenas[k]
    ensures GroupValue(Split(d, ' ')) == Some(10 * k)
  {
    d := Decenas[k];
    if k < 6 {
      TensWordLow(k);
    } else {
      TensWordHigh(k);
    }
    WordGroup(d, 10 * k);
  }

  /** One unfolding of `numeroALetrasSimple` on 20..99. */
  lemma TensText(n: nat)
    requires 20 <= n < 100
    ensures n % 10 == 0 ==> NumeroALetrasSimple(n) == Decenas[n / 10]
    ensures n % 10 > 0 ==> NumeroALetrasSimple(n) == Decenas[n / 10] + [' '] + "Y" + [' '] + NumeroALetrasSimple(n % 10)
  {
    if n % 10 == 0 {
      assert Decenas[n / 10] + "" == Decenas[n / 10];
    } else {
      SpacedY(Decenas[n / 10], NumeroALetrasSimple(n % 10));
    }
  }

  lemma SpacedY(d: string, u: string)
    ensures d + " Y " + u == d + [' '] + "Y" + [' '] + u
  {
  }

  /** One unfolding of `numeroALetrasSimple` on 101..999, whose hundreds
      digit is `k` and remainder `r`. */
  lemma HundredsText(n: nat, k: nat, r: nat)
    requires 100 < n < 1000 && 1 <= k <= 9 && r < 100 && n == 100 * k + r
    ensures r == 0 ==> NumeroALetrasSimple(n) == Centenas[k]
    ensures r > 0 ==> NumeroALetrasSimple(n) == Centenas[k] + [' '] + NumeroALetrasSimple(r)
  {
    HundredsDigits(k, r);
    if r == 0 {
      assert Centenas[k] + "" == Centenas[k];
    }
  }

  lemma HundredsDigits(k: nat, r: nat)
    requires r < 100
    ensures (100 * k + r) / 100 == k && (100 * k + r) % 100 == r
  {
  }

  lemma HundredsSplit(n: nat)
    ensures n == 100 * (n / 100) + n % 100
  {
  }

  /** The word for the hundreds of 101..999. */
  lemma HundredsPiece(k: nat) returns (c: string)
    requires 1 <= k <= 9
    ensures c == Centenas[k]
    ensures GroupValue(Split(c, ' ')) == Some(100 * k)
  {
    c := Centenas[k];
    if k < 4 {
      HundredsWordLow(k);
    } else if k < 7 {
      HundredsWordMid(k);
    } else {
      HundredsWordHigh(k);
    }
    WordGroup(c, 100 * k);
  }

  lemma LiteralGroups()
    ensures GroupValue(Split("Y", ' ')) == Some(0)
    ensures GroupValue(Split("CIEN", ' ')) == Some(100)
  {
    WordGroup("Y", 0);
    WordGroup("CIEN", 100);
  }

  /** Three groups joined by spaces add their values. */
  lemma GroupJoin3(a: string, m: string, b: string, x: nat, z: nat, y: nat)
    requires GroupValue(Split(a, ' ')) == Some(x)
    requires GroupValue(Split(m, ' ')) == Some(z)
    requires GroupValue(Split(b, ' ')) == Some(y)
    ensures GroupValue(Split(a + [' '] + m + [' '] + b, ' ')) == Some(x + z + y)
  {
    GroupJoin(a, m, x, z);
    GroupJoin(a + [' '] + m, b, x + z, y);
  }

  lemma TensValue(n: nat)
    requires 20 <= n < 100
    ensures GroupValue(Split(NumeroALetrasSimple(n), ' ')) == Some(n)
  {
    if n % 10 == 0 {
      RoundTensValue(n);
    } else {
      TensAndUnitValue(n);
    }
  }

  /** 20, 30, ..., 90: the tens word alone. */
  lemma RoundTensValue(n: nat)
    requires 20 <= n < 100 && n % 10 == 0
    ensures GroupValue(Split(NumeroALetrasSimple(n), ' ')) == Some(n)
  {
    var k := n / 10;
    assert 10 * k == n;
    TensText(n);
    var d := TensPiece(k);
    assert NumeroALetrasSimple(n) == d;
  }

  /** 21..99 off the round tens: the tens word, "Y" and the unit word. */
  lemma TensAndUnitValue(n: nat)
    requires 20 <= n < 100 && n % 10 != 0
    ensures GroupValue(Split(NumeroALetrasSimple(n), ' ')) == Some(n)
  {
    var k, r := n / 10, n % 10;
    TensText(n);
    var d := TensPiece(k);
    var u := SmallPiece(r);
    LiteralGroups();
    GroupJoin3(d, "Y", u, 10 * k, 0, r);
    assert NumeroALetrasSimple(n) == d + [' '] + "Y" + [' '] + u;
  }

  lemma HundredsValue(n: nat)
    requires 100 < n < 1000
    requires n % 100 > 0 ==> GroupValue(Split(NumeroALetrasSimple(n % 100), ' ')) == Some(n % 100)
    ensures GroupValue(Split(NumeroALetrasSimple(n), ' ')) == Some(n)
  {
    var k, r := n / 100, n % 100;
    HundredsSplit(n);
    if r == 0 {
      RoundHundredsValue(n, k);
    } else {
      HundredsAndRestValue(n, k, r);
    }
  }

  /** 200, 300, ..., 900: the hundreds word alone. */
  lemma RoundHundredsValue(n: nat, k: nat)
    requires 2 <= k <= 9 && n == 100 * k
    ensures GroupValue(Split(NumeroALetrasSimple(n), ' ')) == Some(n)
  {
    HundredsText(n, k, 0);
    var c := HundredsPiece(k);
  }

  /** The hundreds word followed by the words of the remainder. */
  lemma HundredsAndRestValue(n: nat, k: nat, r: nat)
    requires 1 <= k <= 9 && 0 < r < 100 && n == 100 * k + r
    requires GroupValue(Split(NumeroALetrasSimple(r), ' ')) == Some(r)
    ensures GroupValue(Split(NumeroALetrasSimple(n), ' ')) == Some(n)
  {
    HundredsText(n, k, r);
    var c := HundredsPiece(k);
    GroupJoinAs(NumeroALetrasSimple(n), c, NumeroALetrasSimple(r), 100 * k, r);
  }

  /** A text that is two groups joined by a space adds their values. */
  lemma GroupJoinAs(t: string, a: string, b: string, x: nat, y: nat)
    requires t == a + [' '] + b
    requires GroupValue(Split(a, ' ')) == Some(x) && GroupValue(Split(b, ' ')) == Some(y)
    ensures GroupValue(Split(t, ' ')) == Some(x + y)
  {
    GroupJoin(a, b, x, y);
  }

  /** Every word of `numeroALetrasSimple(n)` is a number word, and they add
      up to n. */
  lemma {:induction false} SimpleWordsValue(n: nat)
    requires n > 0
    ensures GroupValue(Split(NumeroALetrasSimple(n), ' ')) == Some(n)
    decreases n
  {
    if n < 20 {
      var w := SmallPiece(n);
    } else if n < 100 {
      TensValue(n);
    } else if n == 100 {
      LiteralGroups();
    } else if n < 1000 {
      if n % 100 > 0 {
        SimpleWordsValue(n % 100);
      }
      HundredsValue(n);
    } else {
      NumeralWord(n);
      WordGroup(NatToString(n), n);
    }
  }

  // ---- Amounts ----

  predicate NoCurrency(ts: seq<string>) {
    forall i :: 0 <= i < |ts| ==> ts[i] !in Currency
  }

  /** The markers are not number words. */
  lemma MarkerNotNumber(t: string)
    requires t in Currency || t == "MIL"
    ensures TokenValue(t).None?
  {
    if t == "MIL" {
      ThousandWord();
    } else {
      CurrencyWords();
    }
  }

  /** No word of a number group is a currency or a thousands marker. */
  lemma GroupHasNoMarkers(ts: seq<string>)
    requires GroupValue(ts).Some?
    ensures forall i :: 0 <= i < |ts| ==> ts[i] !in Currency && ts[i] != "MIL"
  {
    forall i | 0 <= i < |ts|
      ensures ts[i] !in Currency && ts[i] != "MIL"
    {
      GroupValuedWords(ts, i);
      if ts[i] in Currency || ts[i] == "MIL" {
        MarkerNotNumber(ts[i]);
      }
    }
  }

  /** The words of a group followed by "MIL" and the words of another
      group read as 1000 times the first plus the second. */
  lemma ThousandsValue(xs: seq<string>, ys: seq<string>, m: nat, r: nat)
    requires GroupValue(xs) == Some(m) && GroupValue(ys) == Some(r)
    ensures IntegerValue(xs + ["MIL"] + ys) == Some(1000 * m + r)
    ensures NoCurrency(xs + ["MIL"] + ys)
  {
    GroupHasNoMarkers(xs);
    GroupHasNoMarkers(ys);
    MarkerFree(xs, ys);
    assert forall i :: 0 <= i < |xs| ==> xs[i] !in Thousand;
    FirstOfAfter(xs, "MIL", ys, Thousand);
    AroundWord(xs, "MIL", ys);
  }

  /** The two sides of a word in the middle of a sequence. */
  lemma AroundWord(xs: seq<string>, w: string, ys: seq<string>)
    ensures (xs + [w] + ys)[..|xs|] == xs && (xs + [w] + ys)[|xs| + 1..] == ys
  {
  }

  lemma MarkerFree(xs: seq<string>, ys: seq<string>)
    requires forall i :: 0 <= i < |xs| ==> xs[i] !in Currency
    requires forall i :: 0 <= i < |ys| ==> ys[i] !in Currency
    ensures NoCurrency(xs + ["MIL"] + ys)
  {
    var ts := xs + ["MIL"] + ys;
    forall i | 0 <= i < |ts|
      ensures ts[i] !in Currency
    {
      if i < |xs| {
        assert ts[i] == xs[i];
      } else if i > |xs| {
        assert ts[i] == ys[i - |xs| - 1];
      }
    }
  }

  lemma ThousandsSplit(a: string, b: string)
    ensures Split(a + [' '] + ("MIL" + [' '] + b), ' ') == Split(a, ' ') + ["MIL"] + Split(b, ' ')
  {
    SplitNoSeparator("MIL", ' ');
    SplitJoin("MIL", b, ' ');
    SplitJoin(a, "MIL" + [' '] + b, ' ');
    assert Split(a, ' ') + (["MIL"] + Split(b, ' ')) == Split(a, ' ') + ["MIL"] + Split(b, ' ');
  }

  /** "<a> MIL <b>" reads as 1000 times a's value plus b's. */
  lemma ThousandsJoin(a: string, b: string, m: nat, r: nat)
    requires GroupValue(Split(a, ' ')) == Some(m) && GroupValue(Split(b, ' ')) == Some(r)
    ensures IntegerValue(Split(a + [' '] + ("MIL" + [' '] + b), ' ')) == Some(1000 * m + r)
    ensures NoCurrency(Split(a + [' '] + ("MIL" + [' '] + b), ' '))
  {
    ThousandsSplit(a, b);
    ThousandsValue(Split(a, ' '), Split(b, ' '), m, r);
  }

  /** "<a> MIL" reads as 1000 times a's value. */
  lemma ThousandsAlone(a: string, m: nat)
    requires GroupValue(Split(a, ' ')) == Some(m)
    ensures IntegerValue(Split(a + [' '] + "MIL", ' ')) == Some(1000 * m)
    ensures NoCurrency(Split(a + [' '] + "MIL", ' '))
  {
    var xs := Split(a, ' ');
    SplitNoSeparator("MIL", ' ');
    SplitJoin(a, "MIL", ' ');
    NothingAfter(xs, "MIL");
    ThousandsValue(xs, [], m, 0);
  }

  lemma NothingAfter(xs: seq<string>, w: string)
    ensures xs + [w] == xs + [w] + []
  {
  }

  lemma ThousandsRestText(e: nat)
    requires e >= 1000 && e % 1000 > 0
    ensures EnteroText(e)
      == NumeroALetrasSimple(e / 1000) + [' '] + ("MIL" + [' '] + NumeroALetrasSimple(e % 1000)) + [' ']
  {
  }

  lemma ThousandsRoundText(e: nat)
    requires e >= 1000 && e % 1000 == 0
    ensures EnteroText(e) == NumeroALetrasSimple(e / 1000) + [' '] + "MIL" + [' ']
  {
  }

  /** "<m's words> MIL <r's words>" reads as e. */
  lemma ThousandsRestValue(a: string, b: string, m: nat, r: nat, e: nat)
    requires m > 0 && r > 0 && e == 1000 * m + r
    requires a == NumeroALetrasSimple(m) && b == NumeroALetrasSimple(r)
    ensures IntegerValue(Split(a + [' '] + ("MIL" + [' '] + b), ' ')) == Some(e)
    ensures NoCurrency(Split(a + [' '] + ("MIL" + [' '] + b), ' '))
  {
    SimpleWordsValue(m);
    SimpleWordsValue(r);
    ThousandsJoin(a, b, m, r);
  }

  /** "<m's words> MIL" reads as e. */
  lemma ThousandsRoundValue(a: string, m: nat, e: nat)
    requires m > 0 && e == 1000 * m
    requires a == NumeroALetrasSimple(m)
    ensures IntegerValue(Split(a + [' '] + "MIL", ' ')) == Some(e)
    ensures NoCurrency(Split(a + [' '] + "MIL", ' '))
  {
    SimpleWordsValue(m);
    ThousandsAlone(a, m);
  }

  /** The integer part's text for 1000 and more with a non-zero rest. */
  lemma ThousandsRestPiece(e: nat) returns (x: string)
    requires e >= 1000 && e % 1000 > 0
    ensures EnteroText(e) == x + [' ']
    ensures IntegerValue(Split(x, ' ')) == Some(e)
    ensures NoCurrency(Split(x, ' '))
  {
    var m, r := e / 1000, e % 1000;
    var a, b := NumeroALetrasSimple(m), NumeroALetrasSimple(r);
    ThousandsRestText(e);
    x := a + [' '] + ("MIL" + [' '] + b);
    ThousandsRestValue(a, b, m, r, e);
  }

  /** The integer part's text for a multiple of 1000. */
  lemma ThousandsRoundPiece(e: nat) returns (x: string)
    requires e >= 1000 && e % 1000 == 0
    ensures EnteroText(e) == x + [' ']
    ensures IntegerValue(Split(x, ' ')) == Some(e)
    ensures NoCurrency(Split(x, ' '))
  {
    var m := e / 1000;
    var a := NumeroALetrasSimple(m);
    ThousandsRoundText(e);
    x := a + [' '] + "MIL";
    ThousandsRoundValue(a, m, e);
  }

  /** The integer part's text (without its final space) reads as the
      integer part. */
  lemma IntegerPiece(e: nat) returns (x: string)
    requires e >= 1
    ensures EnteroText(e) == x + [' ']
    ensures IntegerValue(Split(x, ' ')) == Some(e)
    ensures NoCurrency(Split(x, ' '))
  {
    if e < 1000 {
      x := NumeroALetrasSimple(e);
      SimpleWordsValue(e);
      GroupHasNoMarkers(Split(x, ' '));
      FirstOfNone(Split(x, ' '), Thousand);
    } else if e % 1000 > 0 {
      x := ThousandsRestPiece(e);
    } else {
      x := ThousandsRoundPiece(e);
    }
  }

  /** "<moneda> CON <w> <unit>" splits into its words. */
  lemma TailSplit(moneda: string, w: string, unit: string)
    requires ' ' !in moneda && ' ' !in unit
    ensures Split(moneda + [' '] + ("CON" + [' '] + (w + [' '] + unit)), ' ')
      == [moneda] + (["CON"] + Split(w, ' ') + [unit])
  {
    SplitNoSeparator(moneda, ' ');
    SplitNoSeparator("CON", ' ');
    SplitNoSeparator(unit, ' ');
    SplitJoin(w, unit, ' ');
    SplitJoin("CON", w + [' '] + unit, ' ');
    SplitJoin(moneda, "CON" + [' '] + (w + [' '] + unit), ' ');
    assert ["CON"] + (Split(w, ' ') + [unit]) == ["CON"] + Split(w, ' ') + [unit];
  }

  /** "CON <c's words> CENTAVO(S)" reads as c. */
  lemma CentsRead(c: nat)
    requires c > 0
    ensures ReadCents(["CON"] + Split(NumeroALetrasSimple(c), ' ') + [CentWord(c)]) == Some(c)
  {
    var ws := Split(NumeroALetrasSimple(c), ' ');
    var rest := ["CON"] + ws + [CentWord(c)];
    SimpleWordsValue(c);
    assert rest[1..|rest| - 1] == ws;
  }

  /** The currency word and the cents text split into the currency word
      and words that read as the cents. */
  lemma TailParts(e: nat, c: nat) returns (rest: seq<string>)
    ensures Split(Moneda(e) + CentavosText(c), ' ') == [Moneda(e)] + rest
    ensures ReadCents(rest) == Some(c)
  {
    if c == 0 {
      rest := [];
      TailWithoutCents(e);
    } else {
      rest := TailWithCents(e, c);
    }
  }

  lemma TailWithoutCents(e: nat)
    ensures Split(Moneda(e) + CentavosText(0), ' ') == [Moneda(e)] + []
  {
    var moneda := Moneda(e);
    SplitNoSeparator(moneda, ' ');
    assert moneda + CentavosText(0) == moneda;
  }

  lemma TailWithCents(e: nat, c: nat) returns (rest: seq<string>)
    requires c > 0
    ensures Split(Moneda(e) + CentavosText(c), ' ') == [Moneda(e)] + rest
    ensures ReadCents(rest) == Some(c)
  {
    var moneda, w, unit := Moneda(e), NumeroALetrasSimple(c), CentWord(c);
    rest := ["CON"] + Split(w, ' ') + [unit];
    ConShape(w, unit);
    SpaceThen(moneda, "CON" + [' '] + (w + [' '] + unit));
    TailSplit(moneda, w, unit);
    CentsRead(c);
  }

  lemma ConShape(w: string, unit: string)
    ensures " CON " + w + " " + unit == [' '] + ("CON" + [' '] + (w + [' '] + unit))
  {
  }

  lemma SpaceThen(a: string, x: string)
    ensures a + ([' '] + x) == a + [' '] + x
  {
  }

  /** An integer text, a space, the currency word and a cents text read
      as the amount. */
  lemma ReadParts(x: string, tail: string, rest: seq<string>, e: nat, c: nat)
    requires IntegerValue(Split(x, ' ')) == Some(e) && NoCurrency(Split(x, ' '))
    requires Split(tail, ' ') == [Moneda(e)] + rest && ReadCents(rest) == Some(c)
    ensures ReadAmount(x + [' '] + tail) == Some((e, c))
  {
    SplitJoin(x, tail, ' ');
    var xs := Split(x, ' ');
    var ts := xs + [Moneda(e)] + rest;
    assert Split(x + [' '] + tail, ' ') == ts;
    FirstOfAfter(xs, Moneda(e), rest, Currency);
    assert ts[..|xs|] == xs;
    assert ts[|xs| + 1..] == rest;
  }

  lemma AmountShape(e: nat, c: nat, x: string)
    requires EnteroText(e) == x + [' ']
    ensures AmountWords(e, c) == x + [' '] + (Moneda(e) + CentavosText(c))
  {
    Regroup3(EnteroText(e), Moneda(e), CentavosText(c));
  }

  lemma Regroup3(p: string, q: string, r: string)
    ensures p + q + r == p + (q + r)
  {
  }

  /** The words `numeroALetras` accumulates read back as the integer part
      and the cents, whenever the integer part is at least one. */
  lemma AmountWordsRoundTrip(entero: nat, centavos: nat)
    requires entero >= 1
    ensures ReadAmount(AmountWords(entero, centavos)) == Some((entero, centavos))
  {
    var x := IntegerPiece(entero);
    var rest := TailParts(entero, centavos);
    AmountShape(entero, centavos, x);
    ReadParts(x, Moneda(entero) + CentavosText(centavos), rest, entero, centavos);
  }

  /** `numeroALetras` of an amount of at least one reads back as its
      integer part and its rounded cents. */
  lemma NumeroALetrasRoundTrip(numero: real)
    requires numero >= 1.0
    ensures ReadAmount(NumeroALetras(numero)) == Some((IntegerPart(numero), Cents(numero)))
  {
    AmountWordsRoundTrip(IntegerPart(numero), Cents(numero));
  }

  lemma EmptyWordNotNumber()
    ensures TokenValue("") == None
  {
  }

  /** A text that starts with a space before the currency word has no
      integer part to read. */
  lemma ReadNoInteger(tail: string, rest: seq<string>)
    requires Split(tail, ' ') == [Moneda(0)] + rest
    ensures ReadAmount("" + [' '] + tail) == None
  {
    SplitJoin("", tail, ' ');
    var ts := [""] + [Moneda(0)] + rest;
    assert Split("" + [' '] + tail, ' ') == ts;
    FirstOfAfter([""], Moneda(0), rest, Currency);
    assert ts[..1] == [""];
    EmptyWordNotNumber();
    assert FirstOf([""], Thousand) == None;
  }

  lemma BelowOneText(numero: real)
    requires 0.0 < numero < 1.0
    ensures NumeroALetras(numero) == "" + [' '] + (Moneda(0) + CentavosText(Cents(numero)))
  {
    assert IntegerPart(numero) == 0;
    assert EnteroText(0) == [' '];
  }

  /** Below one the integer part contributes no word at all: the text
      starts with a space and the plural currency word, and does not
      read as an amount. */
  lemma NumeroALetrasBelowOne(numero: real)
    requires 0.0 < numero < 1.0
    ensures NumeroALetras(numero) == " DÓLARES" + CentavosText(Cents(numero))
    ensures ReadAmount(NumeroALetras(numero)) == None
  {
    BelowOneText(numero);
    var rest := TailParts(0, Cents(numero));
    ReadNoInteger(Moneda(0) + CentavosText(Cents(numero)), rest);
  }
}
