/** The second copy of the amount in words, local to the App component
    (`numeroALetras` and `numeroALetrasSimple` in src/App.tsx), used by the
    PDF text of an invoice. It differs from the generator's copy in three
    ways: 21 to 29 contract to "VEINTIUNO" .. "VEINTINUEVE", sixteen is
    written "DIECISEIS" and the currency "DOLAR"/"DOLARES", both without
    accents. Its tens branch reads a table that is declared only inside
    `numeroALetras`, so for a two-digit part of 20 or 30 to 99 the call
    throws a ReferenceError; the as-written model returns `None` there.
    `FixedNumeroALetrasSimple` is the copy with the table in scope. */
module AppWords {
  import opened Wrappers
  import opened Text
  import DteWords

  const AppUnidades: seq<string> :=
    ["", "UNO", "DOS", "TRES", "CUATRO", "CINCO", "SEIS", "SIETE", "OCHO", "NUEVE"]
  const AppEspeciales: seq<string> :=
    ["DIEZ", "ONCE", "DOCE", "TRECE", "CATORCE", "QUINCE", "DIECISEIS", "DIECISIETE", "DIECIOCHO", "DIECINUEVE"]
  /** The tens table of `numeroALetras`; in the code as written it is out
      of reach of `numeroALetrasSimple`. */
  const AppDecenas: seq<string> :=
    ["", "", "VEINTE", "TREINTA", "CUARENTA", "CINCUENTA", "SESENTA", "SETENTA", "OCHENTA", "NOVENTA"]
  const AppCentenas: seq<string> :=
    ["", "CIENTO", "DOSCIENTOS", "TRESCIENTOS", "CUATROCIENTOS", "QUINIENTOS", "SEISCIENTOS",
     "SETECIENTOS", "OCHOCIENTOS", "NOVECIENTOS"]

  /** `s` between `p` and `q`, when there is an `s`: a concatenation
      whose middle operand may have thrown. */
  function Wrap(p: string, s: Option<string>, q: string): (r: Option<string>)
    ensures r.Some? <==> s.Some?
    ensures r.Some? ==> r.value == p + s.value + q
  {
    match s
    case None => None
    case Some(w) => Some(p + w + q)
  }

  /** `numeroALetrasSimple` as written: `None` where it throws. */
  function AppNumeroALetrasSimple(n: nat): (r: Option<string>)
  {
    if n == 0 then Some("")
    else if n < 10 then Some(AppUnidades[n])
    else if n < 20 then Some(AppEspeciales[n - 10])
    else if n < 100 then
      if n < 30 && n % 10 > 0 then Wrap("VEINTI", AppNumeroALetrasSimple(n % 10), "")
      else None
    else if n < 1000 then
      if n == 100 then Some("CIEN")
      else if n % 100 > 0 then Wrap(AppCentenas[n / 100] + " ", AppNumeroALetrasSimple(n % 100), "")
      else Some(AppCentenas[n / 100])
    else Some(NatToString(n))
  }

  /** `numeroALetrasSimple` with the tens table in scope: the tens word,
      then " Y " and the unit when there is one. */
  function FixedNumeroALetrasSimple(n: nat): (r: string)
    ensures r == "" <==> n == 0
  {
    if n == 0 then ""
    else if n < 10 then AppUnidades[n]
    else if n < 20 then AppEspeciales[n - 10]
    else if n < 100 then
      if n < 30 && n % 10 > 0 then "VEINTI" + FixedNumeroALetrasSimple(n % 10)
      else AppDecenas[n / 10] + (if n % 10 > 0 then " Y " + FixedNumeroALetrasSimple(n % 10) else "")
    else if n < 1000 then
      if n == 100 then "CIEN"
      else AppCentenas[n / 100] + (if n % 100 > 0 then " " + FixedNumeroALetrasSimple(n % 100) else "")
    else NatToString(n)
  }

  /** The numbers whose words the as-written copy can produce: from 1000
      on, or with a last-two-digit part that is not 20 and below 30. */
  predicate SimpleDefined(n: nat) {
    n >= 1000 || (n % 100 != 20 && n % 100 < 30)
  }

  /** The as-written copy returns a text exactly for the numbers above,
      and then the same text as the corrected copy. */
  lemma {:induction false} AppSimpleDefinedIff(n: nat)
    ensures AppNumeroALetrasSimple(n).Some? <==> SimpleDefined(n)
    ensures AppNumeroALetrasSimple(n).Some? ==> AppNumeroALetrasSimple(n).value == FixedNumeroALetrasSimple(n)
  {
    if 20 <= n < 100 {
      if n < 30 && n % 10 > 0 {
        AppSimpleDefinedIff(n % 10);
      }
    } else if 100 <= n < 1000 && n != 100 && n % 100 > 0 {
      AppSimpleDefinedIff(n % 100);
      assert (n % 100) % 100 == n % 100;
    }
  }

  /** The three-digit tables of both copies hold the same words, and the
      teens differ only in sixteen's accent. */
  lemma TablesAgree()
    ensures AppUnidades == DteWords.Unidades
    ensures AppDecenas == DteWords.Decenas
    ensures AppCentenas == DteWords.Centenas
    ensures AppEspeciales[..6] == DteWords.Especiales[..6]
    ensures AppEspeciales[7..] == DteWords.Especiales[7..]
    ensures AppEspeciales[6] == "DIECISEIS" && DteWords.Especiales[6] == "DIECISÉIS"
  {
  }

  /** The teens of both copies, sixteen aside. */
  lemma TeensAgree(n: nat)
    requires 10 <= n < 20 && n != 16
    ensures AppEspeciales[n - 10] == DteWords.Especiales[n - 10]
  {
    TablesAgree();
    if n < 16 {
      assert AppEspeciales[n - 10] == AppEspeciales[..6][n - 10];
      assert DteWords.Especiales[n - 10] == DteWords.Especiales[..6][n - 10];
    } else {
      assert AppEspeciales[n - 10] == AppEspeciales[7..][n - 17];
      assert DteWords.Especiales[n - 10] == DteWords.Especiales[7..][n - 17];
    }
  }

  /** One step of `CopiesAgree` for 30 to 99 and 20. */
  lemma TensAgree(n: nat)
    requires 20 <= n < 100 && !(21 <= n <= 29)
    requires FixedNumeroALetrasSimple(n % 10) == DteWords.NumeroALetrasSimple(n % 10)
    ensures FixedNumeroALetrasSimple(n) == DteWords.NumeroALetrasSimple(n)
  {
    TablesAgree();
  }

  /** One step of `CopiesAgree` for 101 to 999. */
  lemma HundredsAgree(n: nat)
    requires 100 < n < 1000
    requires FixedNumeroALetrasSimple(n % 100) == DteWords.NumeroALetrasSimple(n % 100)
    ensures FixedNumeroALetrasSimple(n) == DteWords.NumeroALetrasSimple(n)
  {
    TablesAgree();
  }

  /** Outside sixteen and the "VEINTI" contraction, the corrected copy
      writes the same words as the generator's copy, whose words read back
      to the number. */
  lemma {:induction false} CopiesAgree(n: nat)
    requires n >= 1000 || (n % 100 != 16 && !(21 <= n % 100 <= 29))
    ensures FixedNumeroALetrasSimple(n) == DteWords.NumeroALetrasSimple(n)
  {
    if n == 0 || n >= 1000 {
    } else if n < 10 {
      TablesAgree();
    } else if n < 20 {
      TeensAgree(n);
    } else if n < 100 {
      CopiesAgree(n % 10);
      TensAgree(n);
    } else if n != 100 {
      assert (n % 100) % 100 == n % 100;
      CopiesAgree(n % 100);
      HundredsAgree(n);
    }
  }

  /** The integer-part text, `None` when a segment's words throw. */
  function AppEnteroText(entero: nat): Option<string>
  {
    if entero >= 1000 then
      match AppNumeroALetrasSimple(entero / 1000)
      case None => None
      case Some(miles) =>
        if entero % 1000 > 0 then Wrap(miles + " MIL ", AppNumeroALetrasSimple(entero % 1000), " ")
        else Some(miles + " MIL ")
    else Wrap("", AppNumeroALetrasSimple(entero), " ")
  }

  function AppMoneda(entero: nat): string {
    if entero == 1 then "DOLAR" else "DOLARES"
  }

  function AppCentWord(centavos: nat): string {
    if centavos == 1 then "CENTAVO" else "CENTAVOS"
  }

  function AppCentavosText(centavos: nat): Option<string>
  {
    if centavos > 0 then Wrap(" CON ", AppNumeroALetrasSimple(centavos), " " + AppCentWord(centavos))
    else Some("")
  }

  /** `numeroALetras(numero)` as written, for a non-negative amount:
      `None` where one of its segments throws. */
  function AppNumeroALetras(numero: real): (r: Option<string>)
    requires numero >= 0.0
    ensures numero == 0.0 ==> r == Some("CERO DOLARES")
    ensures numero != 0.0 ==>
      (r.Some? <==> AppEnteroText(DteWords.IntegerPart(numero)).Some? && AppCentavosText(DteWords.Cents(numero)).Some?)
  {
    if numero == 0.0 then Some("CERO DOLARES")
    else
      var entero := DteWords.IntegerPart(numero);
      var centavos := DteWords.Cents(numero);
      match AppEnteroText(entero)
      case None => None
      case Some(e) => Wrap(e + AppMoneda(entero), AppCentavosText(centavos), "")
  }

  /** The integer-part text of the corrected copy. */
  function FixedEnteroText(entero: nat): string
  {
    if entero >= 1000 then
      FixedNumeroALetrasSimple(entero / 1000) + " MIL " +
      (if entero % 1000 > 0 then FixedNumeroALetrasSimple(entero % 1000) + " " else "")
    else FixedNumeroALetrasSimple(entero) + " "
  }

  function FixedCentavosText(centavos: nat): string
  {
    if centavos > 0 then " CON " + FixedNumeroALetrasSimple(centavos) + " " + AppCentWord(centavos)
    else ""
  }

  /** `numeroALetras(numero)` with the corrected words: never throws. */
  function FixedNumeroALetras(numero: real): string
    requires numero >= 0.0
  {
    if numero == 0.0 then "CERO DOLARES"
    else
      var entero := DteWords.IntegerPart(numero);
      FixedEnteroText(entero) + AppMoneda(entero) + FixedCentavosText(DteWords.Cents(numero))
  }

  /** The segments an amount is written in: the thousands and the rest
      from 1000 on, else the integer part, and the cents when there are
      any. The as-written copy succeeds exactly when all of them can be
      written. */
  predicate AmountDefined(entero: nat, centavos: nat) {
    && (entero >= 1000 ==> SimpleDefined(entero / 1000))
    && (entero >= 1000 && entero % 1000 > 0 ==> SimpleDefined(entero % 1000))
    && (entero < 1000 ==> SimpleDefined(entero))
    && (centavos > 0 ==> SimpleDefined(centavos))
  }

  /** The as-written integer-part text exists exactly when its segments
      can be written, and it is then the corrected text. */
  lemma AppEnteroDefinedIff(entero: nat)
    ensures AppEnteroText(entero).Some? <==>
      if entero >= 1000 then SimpleDefined(entero / 1000) && (entero % 1000 > 0 ==> SimpleDefined(entero % 1000))
      else SimpleDefined(entero)
    ensures AppEnteroText(entero).Some? ==> AppEnteroText(entero).value == FixedEnteroText(entero)
  {
    AppSimpleDefinedIff(entero);
    AppSimpleDefinedIff(entero / 1000);
    AppSimpleDefinedIff(entero % 1000);
  }

  /** The as-written cents text exists exactly when there are no cents or
      they can be written, and it is then the corrected text. */
  lemma AppCentavosDefinedIff(centavos: nat)
    ensures AppCentavosText(centavos).Some? <==> (centavos > 0 ==> SimpleDefined(centavos))
    ensures AppCentavosText(centavos).Some? ==> AppCentavosText(centavos).value == FixedCentavosText(centavos)
  {
    AppSimpleDefinedIff(centavos);
  }

  /** The as-written amount in words exists exactly when every segment
      can be written, and it is then the corrected text. */
  lemma AppAmountDefinedIff(numero: real)
    requires numero > 0.0
    ensures AppNumeroALetras(numero).Some? <==> AmountDefined(DteWords.IntegerPart(numero), DteWords.Cents(numero))
    ensures AppNumeroALetras(numero).Some? ==> AppNumeroALetras(numero).value == FixedNumeroALetras(numero)
  {
    AppEnteroDefinedIff(DteWords.IntegerPart(numero));
    AppCentavosDefinedIff(DteWords.Cents(numero));
  }

  /** The failure the out-of-scope table causes: thirty-five has no words
      in the as-written copy, and so neither has an amount of $35.00,
      while the corrected copy writes "TREINTA Y CINCO". */
  lemma AppWordsThrowOnThirtyFive()
    ensures AppNumeroALetrasSimple(35) == None
    ensures AppNumeroALetras(35.0) == None
    ensures FixedNumeroALetrasSimple(35) == "TREINTA Y CINCO"
    ensures FixedNumeroALetras(35.0) == "TREINTA Y CINCO DOLARES"
  {
    assert DteWords.IntegerPart(35.0) == 35;
    assert DteWords.Cents(35.0) == 0;
  }
}
