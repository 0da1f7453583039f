/** The DTE list (`src/components/DTEManagement.tsx`, and its older copy
    `project-prototype-OG/src/components/DTEManagement.tsx`, whose filter,
    counters and actions are the same): the search and status filter, the
    counters, the approve and reject buttons, and what a download holds
    (the current copy only). */
module DteManagement {
  import opened Wrappers
  import opened Text
  import opened Seqs
  import opened Types

  // ---- Filter, counters, actions ----

  predicate RecordMatches(r: DteRecord, term: string, status: StatusFilter<DteStatus>) {
    SearchMatches(r.customerName, r.id, term) && status.Accepts(r.status)
  }

  function RecordFilter(term: string, status: StatusFilter<DteStatus>): DteRecord -> bool {
    (r: DteRecord) => RecordMatches(r, term, status)
  }

  /** `filteredRecords`: exactly the records whose customer name or id
      holds the search term, ignoring case, and whose status is the chosen
      one ("all" accepting every status). */
  function FilteredRecords(records: seq<DteRecord>, term: string, status: StatusFilter<DteStatus>): (r: seq<DteRecord>)
    ensures forall i :: 0 <= i < |r| ==> r[i] in records && RecordMatches(r[i], term, status)
    ensures forall i :: 0 <= i < |records| && RecordMatches(records[i], term, status) ==> records[i] in r
  {
    var r := Filter(RecordFilter(term, status), records);
    assert forall i :: 0 <= i < |r| ==> RecordFilter(term, status)(r[i]);
    assert forall i :: 0 <= i < |records| && RecordMatches(records[i], term, status) ==> RecordFilter(term, status)(records[i]);
    r
  }

  /** The filter keeps the records' order. */
  lemma FilteredRecordsKeepOrder(records: seq<DteRecord>, term: string, status: StatusFilter<DteStatus>)
    ensures IsSubsequence(FilteredRecords(records, term, status), records)
  {
    FilterIsSubsequence(RecordFilter(term, status), records);
  }

  /** An empty search box with "all" statuses lists every record. */
  lemma NoFilterShowsAllRecords(records: seq<DteRecord>)
    ensures FilteredRecords(records, "", AllStatuses) == records
  {
    forall i | 0 <= i < |records|
      ensures RecordFilter("", AllStatuses)(records[i])
    {
      EmptyTermMatches(records[i].customerName, records[i].id);
    }
    FilterAll(RecordFilter("", AllStatuses), records);
  }

  predicate IsApproved(r: DteRecord) { r.status == Approved }
  predicate IsPending(r: DteRecord) { r.status == Pending }
  predicate IsRejected(r: DteRecord) { r.status == Rejected }

  /** The counters above the table. */
  datatype DteCounts = DteCounts(total: nat, approved: nat, pending: nat, rejected: nat)

  /** `totalDTEs`, `approvedDTEs`, `pendingDTEs` and `rejectedDTEs`: as
      every record has exactly one of the three statuses, the three counts
      add up to the total. */
  function Counts(records: seq<DteRecord>): (c: DteCounts)
    ensures c.total == |records|
    ensures c.approved == |set i | 0 <= i < |records| && records[i].status == Approved|
    ensures c.pending == |set i | 0 <= i < |records| && records[i].status == Pending|
    ensures c.rejected == |set i | 0 <= i < |records| && records[i].status == Rejected|
    ensures c.approved + c.pending + c.rejected == c.total
  {
    CountsPartition(records);
    StatusPositions(records);
    DteCounts(|records|, Count(IsApproved, records), Count(IsPending, records), Count(IsRejected, records))
  }

  lemma StatusPositions(records: seq<DteRecord>)
    ensures Count(IsApproved, records) == |set i | 0 <= i < |records| && records[i].status == Approved|
    ensures Count(IsPending, records) == |set i | 0 <= i < |records| && records[i].status == Pending|
    ensures Count(IsRejected, records) == |set i | 0 <= i < |records| && records[i].status == Rejected|
  {
    CountPositions(IsApproved, records);
    CountPositions(IsPending, records);
    CountPositions(IsRejected, records);
    assert Positions(IsApproved, records) == set i | 0 <= i < |records| && records[i].status == Approved;
    assert Positions(IsPending, records) == set i | 0 <= i < |records| && records[i].status == Pending;
    assert Positions(IsRejected, records) == set i | 0 <= i < |records| && records[i].status == Rejected;
  }

  lemma {:induction false} CountsPartition(records: seq<DteRecord>)
    ensures Count(IsApproved, records) + Count(IsPending, records) + Count(IsRejected, records) == |records|
    decreases |records|
  {
    if records != [] {
      CountsPartition(records[1..]);
    }
  }

  /** The statuses a record's buttons lead to: approve and reject, only
      while the record is pending. */
  function OfferedStatuses(r: DteRecord): (s: set<DteStatus>)
    ensures s != {} <==> r.status == Pending
    ensures Pending !in s
  {
    if r.status == Pending then {Approved, Rejected} else {}
  }

  /** A decided record is final: the buttons move only pending records,
      and to a decision. */
  lemma OfferedDecides(r: DteRecord, to: DteStatus)
    requires to in OfferedStatuses(r)
    ensures r.status == Pending && (to == Approved || to == Rejected)
  {
  }

  // ---- Downloads ----

  /** `${record.status}`. */
  function StatusCode(s: DteStatus): (code: string)
    ensures forall i :: 0 <= i < |code| ==> 'a' <= code[i] <= 'z'
  {
    match s
    case Approved => "approved"
    case Rejected => "rejected"
    case Pending => "pending"
  }

  /** The status a code names, the inverse of `StatusCode`. */
  function StatusOfCode(code: string): (s: Option<DteStatus>)
    ensures s.Some? ==> StatusCode(s.value) == code
  {
    if code == "approved" then Some(Approved)
    else if code == "rejected" then Some(Rejected)
    else if code == "pending" then Some(Pending)
    else None
  }

  lemma StatusCodeRoundTrip(s: DteStatus)
    ensures StatusOfCode(StatusCode(s)) == Some(s)
  {
  }

  /** `x.toFixed(2)` for `x >= 0` as a number of cents: the nearest
      hundredth, ties rounded up. */
  function RoundedCents(x: real): (c: nat)
    requires x >= 0.0
    ensures c as real - 0.5 <= x * 100.0 < c as real + 0.5
  {
    (x * 100.0 + 0.5).Floor
  }

  /** A number of cents as the whole part, a point and two decimals. */
  function CentsText(c: nat): (r: string)
    ensures forall i :: 0 <= i < |r| ==> IsDigit(r[i]) || r[i] == '.'
  {
    NatToString(c / 100) + "." + [DigitChar(c % 100 / 10), DigitChar(c % 10)]
  }

  function UnsignedFixed2(x: real): (r: string)
    requires x >= 0.0
    ensures forall i :: 0 <= i < |r| ==> IsDigit(r[i]) || r[i] == '.'
  {
    CentsText(RoundedCents(x))
  }

  /** `x.toFixed(2)`: a minus sign for negative amounts, then the whole
      part, a point and exactly two decimals. */
  function ToFixed2(x: real): (r: string)
    ensures forall i :: 0 <= i < |r| ==> IsDigit(r[i]) || r[i] == '.' || r[i] == '-'
    ensures ('-' in r) <==> x < 0.0
  {
    if x < 0.0 then "-" + UnsignedFixed2(-x) else UnsignedFixed2(x)
  }

  /** Two decimal digits read back to the number below 100 they render. */
  lemma TwoDigitsValue(n: nat)
    requires n < 100
    ensures DigitsValue([DigitChar(n / 10), DigitChar(n % 10)]) == n
  {
    var d := [DigitChar(n / 10), DigitChar(n % 10)];
    assert d[..1] == [DigitChar(n / 10)];
    assert d[..1][..0] == [];
    assert DigitValue(d[0]) == n / 10 && DigitValue(d[1]) == n % 10;
    assert DigitsValue(d[..1]) == n / 10;
    assert DigitsValue(d) == 10 * (n / 10) + n % 10;
  }

  /** The cents text splits at its point into digits that read back to
      the number of cents. */
  lemma CentsTextReadsBack(c: nat)
    ensures var r := CentsText(c);
      var whole := BeforeFirst(r, '.');
      && |r| == |whole| + 3
      && r[|whole|] == '.'
      && (forall i :: 0 <= i < |whole| ==> IsDigit(whole[i]))
      && (forall i :: |whole| < i < |r| ==> IsDigit(r[i]))
      && DigitsValue(whole) * 100 + DigitsValue(r[|whole| + 1..]) == c
  {
    var w := NatToString(c / 100);
    var frac := [DigitChar(c % 100 / 10), DigitChar(c % 10)];
    BeforeFirstPrefix(w, frac, '.');
    assert CentsText(c) == w + ['.'] + frac;
    assert CentsText(c)[|w| + 1..] == frac;
    NatToStringRoundTrip(c / 100);
    TwoDigitsValue(c % 100);
  }

  /** The two decimals read back: the digits before the point and the
      two after it denote the rounded number of cents. */
  lemma Fixed2ReadsBack(x: real)
    requires x >= 0.0
    ensures var r := ToFixed2(x);
      var whole := BeforeFirst(r, '.');
      && |r| == |whole| + 3
      && r[|whole|] == '.'
      && (forall i :: 0 <= i < |whole| ==> IsDigit(whole[i]))
      && (forall i :: |whole| < i < |r| ==> IsDigit(r[i]))
      && DigitsValue(whole) * 100 + DigitsValue(r[|whole| + 1..]) == RoundedCents(x)
  {
    CentsTextReadsBack(RoundedCents(x));
  }

  /** `seps[0] + fields[0] + seps[1] + ... + fields[n-1] + seps[n]`: a
      text template with its gaps filled. */
  function Interleave(seps: seq<string>, fields: seq<string>): string
    requires |seps| == |fields| + 1
    decreases |fields|
  {
    if fields == [] then seps[0]
    else seps[0] + fields[0] + Interleave(seps[1..], fields[1..])
  }

  /** Reads the gaps of a template back: each separator must come next,
      and a gap runs up to the next `stop` (or to the end). */
  function ReadFields(content: string, seps: seq<string>, stop: char): (r: Option<seq<string>>)
    requires |seps| >= 1
    ensures r.Some? ==> |r.value| == |seps| - 1
    decreases |seps|
  {
    if !(seps[0] <= content) then None
    else
      var rest := content[|seps[0]|..];
      if |seps| == 1 then (if rest == [] then Some([]) else None)
      else
        var field := BeforeFirst(rest, stop);
        match ReadFields(rest[|field|..], seps[1..], stop)
        case None => None
        case Some(fs) => Some([field] + fs)
  }

  /** Separators that begin with `stop` (the last may instead be empty). */
  predicate Delimited(seps: seq<string>, stop: char) {
    forall i :: 1 <= i < |seps| ==>
      (|seps[i]| > 0 && seps[i][0] == stop) || (i == |seps| - 1 && seps[i] == [])
  }

  /** A filled template reads back to its fields when no field holds the
      stop character. */
  lemma {:induction false} ReadInterleave(seps: seq<string>, fields: seq<string>, stop: char)
    requires |seps| == |fields| + 1
    requires Delimited(seps, stop)
    requires forall i :: 0 <= i < |fields| ==> stop !in fields[i]
    ensures ReadFields(Interleave(seps, fields), seps, stop) == Some(fields)
    decreases |fields|
  {
    var content := Interleave(seps, fields);
    if fields == [] {
      assert content[|seps[0]|..] == [];
    } else {
      var tail := Interleave(seps[1..], fields[1..]);
      TailStartsWithStop(seps, fields, stop);
      FirstField(fields[0], tail, stop);
      assert content == seps[0] + (fields[0] + tail);
      assert content[|seps[0]|..] == fields[0] + tail;
      DelimitedTail(seps, stop);
      ReadInterleave(seps[1..], fields[1..], stop);
      assert [fields[0]] + fields[1..] == fields;
    }
  }

  /** The first gap is read up to the stop that opens the rest. */
  lemma FirstField(field: string, tail: string, stop: char)
    requires stop !in field
    requires tail == [] || tail[0] == stop
    ensures BeforeFirst(field + tail, stop) == field
    ensures (field + tail)[|field|..] == tail
  {
    if tail == [] {
      assert field + tail == field;
    } else {
      var rest := tail[1..];
      assert tail == [stop] + rest;
      assert field + tail == field + [stop] + rest;
      BeforeFirstPrefix(field, rest, stop);
    }
  }

  /** After the first gap, the rest of a filled template is empty or
      opens with the stop character. */
  lemma TailStartsWithStop(seps: seq<string>, fields: seq<string>, stop: char)
    requires |seps| == |fields| + 1 && fields != []
    requires Delimited(seps, stop)
    ensures var tail := Interleave(seps[1..], fields[1..]);
      tail == [] || tail[0] == stop
  {
    if seps[1] != [] {
      InterleaveStart(seps[1..], fields[1..]);
    } else {
      assert fields[1..] == [];
    }
  }

  lemma DelimitedTail(seps: seq<string>, stop: char)
    requires |seps| >= 2 && Delimited(seps, stop)
    ensures Delimited(seps[1..], stop)
  {
    forall i | 1 <= i < |seps[1..]|
      ensures (|seps[1..][i]| > 0 && seps[1..][i][0] == stop) || (i == |seps[1..]| - 1 && seps[1..][i] == [])
    {
      assert seps[1..][i] == seps[i + 1];
    }
  }

  lemma {:induction false} InterleaveStart(seps: seq<string>, fields: seq<string>)
    requires |seps| == |fields| + 1
    ensures seps[0] <= Interleave(seps, fields)
  {
  }

  /** A filled template starts with its first gap, the first field and
      the second gap. */
  lemma InterleaveHead(seps: seq<string>, fields: seq<string>)
    requires |seps| == |fields| + 1 && |fields| >= 1
    ensures seps[0] + fields[0] + seps[1] <= Interleave(seps, fields)
  {
    InterleaveStart(seps[1..], fields[1..]);
  }

  /** The gaps of the XML file: ID, Cliente, Monto, Fecha, Estado. */
  const XmlSeparators: seq<string> := [
    "<DTE>\n            <ID>",
    "</ID>\n            <Cliente>",
    "</Cliente>\n            <Monto>",
    "</Monto>\n            <Fecha>",
    "</Fecha>\n            <Estado>",
    "</Estado>\n          </DTE>"]

  /** The gaps of the simulated PDF file. */
  const PdfSeparators: seq<string> := [
    "DTE PDF SIMULADO\n\nID: ",
    "\nCliente: ",
    "\nMonto: $",
    "\nFecha: ",
    "\nEstado: ",
    ""]

  /** The fields a download lists, in order. */
  function RecordFields(r: DteRecord): (f: seq<string>)
    ensures |f| == 5
  {
    [r.id, r.customerName, ToFixed2(r.amount), r.date, StatusCode(r.status)]
  }

  /** The trimmed XML text. */
  function XmlContent(r: DteRecord): (x: string)
    ensures XmlSeparators[0] + r.id + XmlSeparators[1] <= x
  {
    InterleaveHead(XmlSeparators, RecordFields(r));
    Interleave(XmlSeparators, RecordFields(r))
  }

  /** The simulated PDF text: a title, then one labelled line per field. */
  function PdfContent(r: DteRecord): (x: string)
    ensures PdfSeparators[0] + r.id + PdfSeparators[1] <= x
  {
    InterleaveHead(PdfSeparators, RecordFields(r));
    Interleave(PdfSeparators, RecordFields(r))
  }

  /** The XML file lists the record's id, customer, amount with two
      decimals, date and status, in that order: reading its elements back
      gives them, when none of the texts holds a '<'. */
  lemma XmlReadsBack(r: DteRecord)
    requires '<' !in r.id && '<' !in r.customerName && '<' !in r.date
    ensures ReadFields(XmlContent(r), XmlSeparators, '<') == Some(RecordFields(r))
  {
    var f := RecordFields(r);
    forall i | 0 <= i < |f[2]| ensures f[2][i] != '<' {}
    forall i | 0 <= i < |f[4]| ensures f[4][i] != '<' {}
    ReadInterleave(XmlSeparators, f, '<');
  }

  /** The same for the simulated PDF file, line by line. */
  lemma PdfReadsBack(r: DteRecord)
    requires '\n' !in r.id && '\n' !in r.customerName && '\n' !in r.date
    ensures ReadFields(PdfContent(r), PdfSeparators, '\n') == Some(RecordFields(r))
  {
    var f := RecordFields(r);
    forall i | 0 <= i < |f[2]| ensures f[2][i] != '\n' {}
    forall i | 0 <= i < |f[4]| ensures f[4][i] != '\n' {}
    ReadInterleave(PdfSeparators, f, '\n');
  }

  /** The three download buttons. */
  datatype FileType = Xml | Json | Pdf

  /** The text of a file, or the record handed to `JSON.stringify`. */
  datatype Content = Text(text: string) | JsonOf(record: DteRecord)

  datatype DownloadFile = DownloadFile(content: Content, mimeType: string, fileName: string)

  function Extension(t: FileType): (e: string)
    ensures |e| > 0 && '.' !in e
  {
    match t
    case Xml => "xml"
    case Json => "json"
    case Pdf => "pdf"
  }

  /** What `handleDownload(record, type)` hands to the browser: the XML
      text as application/xml, the record's JSON as application/json, the
      simulated PDF text as text/plain, named `<id>.<extension>`. */
  function HandleDownload(r: DteRecord, t: FileType): (d: DownloadFile)
    ensures AfterLast(d.fileName, '.') == Extension(t)
    ensures d.fileName == r.id + "." + Extension(t)
    ensures t == Xml ==> d.content == Text(XmlContent(r)) && d.mimeType == "application/xml"
    ensures t == Json ==> d.content == JsonOf(r) && d.mimeType == "application/json"
    ensures t == Pdf ==> d.content == Text(PdfContent(r)) && d.mimeType == "text/plain"
  {
    AfterLastSuffix(r.id, Extension(t), '.');
    var name := r.id + "." + Extension(t);
    match t
    case Xml => DownloadFile(Text(XmlContent(r)), "application/xml", name)
    case Json => DownloadFile(JsonOf(r), "application/json", name)
    case Pdf => DownloadFile(Text(PdfContent(r)), "text/plain", name)
  }

  /** The text after the last `c`, or all of `s`. */
  function AfterLast(s: string, c: char): (r: string)
    ensures |r| <= |s| && r == s[|s| - |r|..] && c !in r
  {
    if s == [] || s[|s| - 1] == c then []
    else AfterLast(s[..|s| - 1], c) + [s[|s| - 1]]
  }

  lemma {:induction false} AfterLastSuffix(a: string, e: string, c: char)
    requires c !in e
    ensures AfterLast(a + [c] + e, c) == e
    decreases |e|
  {
    var s := a + [c] + e;
    if e != [] {
      assert s[..|s| - 1] == a + [c] + e[..|e| - 1];
      AfterLastSuffix(a, e[..|e| - 1], c);
      assert e[..|e| - 1] + [e[|e| - 1]] == e;
    }
  }
}
