/**
 * What a consumer says back (src/consumer.rs): records marked by RS, their
 * fields set apart by US, each ended by NUL. What JSON is, is left to a pair
 * of inverse functions whose output holds no control character.
 */
module ConsumerModel {
  import opened Common
  import opened LittleEndian
  import F = FrameModel

  const RS: byte := 0x1E
  const US: byte := 0x1F
  const NUL: byte := 0
  const EQUALS: byte := 61
  const MAX_RECORD_HEADER: nat := 0x10_0000

  type Bytes = seq<byte>

  const HELLO: Bytes := [104, 101, 108, 108, 111]
  const PROGRESS: Bytes := [112, 114, 111, 103, 114, 101, 115, 115]
  const NOTE: Bytes := [110, 111, 116, 101]
  const K_V: Bytes := [118]
  const K_READS: Bytes := [114, 101, 97, 100, 115]
  const K_HOLDS: Bytes := [104, 111, 108, 100, 115]
  const K_ID: Bytes := [105, 100]
  const K_OFFSET: Bytes := [111, 102, 102, 115, 101, 116]
  const K_TAKEN: Bytes := [116, 97, 107, 101, 110]
  const K_TEXT: Bytes := [116, 101, 120, 116]
  const V_ONE: Bytes := [49]
  const V_RECORDS: Bytes := [114, 101, 99, 111, 114, 100, 115]
  const V_CHUNKS: Bytes := [99, 104, 117, 110, 107, 115]

  datatype Diet = Records | Chunks
  {
    function Name(): Bytes {
      if Records? then V_RECORDS else V_CHUNKS
    }
  }

  type Holds = map<Bytes, u64>

  datatype Report =
    | Hello(diet: Diet, holds: Holds)
    | Progress(id: Bytes, offset: u64, taken: Option<u64>)
    | Note(noteId: Option<Bytes>, noteOffset: Option<u64>, text: Bytes)

  datatype ReportError =
    | HeaderTooLong
    | Truncated
    | Unmarked
    | BadVersion(v: Bytes)
    | BadDiet(diet: Bytes)
    | BadHolds
    | BeforeHello
    | NoStore
    | NoOffset
    | BadOffset
    | BadTaken
    | TakenBehind
    | NoText
    | BadText

  /** Reading bytes as text, and JSON. */
  datatype Text = Text(
    lossy: Bytes -> Bytes,
    textOf: Bytes -> Bytes, parseText: Bytes -> Option<Bytes>,
    holdsOf: Holds -> Bytes, parseHolds: Bytes -> Option<Holds>)

  predicate Printable(b: Bytes) {
    F.Utf8(b) && forall i :: 0 <= i < |b| ==> b[i] >= 0x20
  }

  /** Text that is UTF-8 is read as it is; JSON comes back, and holds no raw control character. */
  ghost predicate Sound(x: Text) {
    && (forall b :: F.Utf8(b) ==> x.lossy(b) == b)
    && (forall t :: F.Utf8(t) ==> x.parseText(x.textOf(t)) == Some(t) && Printable(x.textOf(t)))
    && (forall h :: x.parseHolds(x.holdsOf(h)) == Some(h) && Printable(x.holdsOf(h)))
  }

  // ------------------------------------------------------------------ numbers

  function Digits(n: nat): (b: Bytes)
    ensures b != [] && forall i :: 0 <= i < |b| ==> 48 <= b[i] <= 57
  {
    if n < 10 then [48 + n] else Digits(n / 10) + [48 + n % 10]
  }

  function Value(b: Bytes): Option<nat> {
    if b == [] then Some(0)
    else
      var head := Value(Front(b));
      if head.None? || !(48 <= Last(b) <= 57) then None else Some(head.value * 10 + (Last(b) - 48))
  }

  /** A number as Rust reads one: digits, perhaps after a plus, within 64 bits. */
  function ParseU64(b: Bytes): Option<u64> {
    var digits := if b != [] && b[0] == 43 then b[1..] else b;
    var v := Value(digits);
    if digits == [] || v.None? || v.value >= 0x1_0000_0000_0000_0000 then None else Some(v.value)
  }

  lemma {:induction false} ValueOfDigits(n: nat)
    ensures Value(Digits(n)) == Some(n)
  {
    if n < 10 {
      assert Front([48 + n]) == [] && Last([48 + n]) == 48 + n;
      assert Value(Front([48 + n])) == Some(0);
    } else {
      ValueOfDigits(n / 10);
      assert Front(Digits(n)) == Digits(n / 10);
    }
  }

  lemma ParseDigits(n: u64)
    ensures ParseU64(Digits(n)) == Some(n)
  {
    ValueOfDigits(n);
  }

  /** What is read as a number: one digit or more, after a plus or not, of a value below 2^64. */
  lemma NumbersAre(b: Bytes)
    ensures var digits := if b != [] && b[0] == 43 then b[1..] else b;
            ParseU64(b).Some? <==>
              && digits != [] && (forall i :: 0 <= i < |digits| ==> 48 <= digits[i] <= 57)
              && (Value(digits).Some? ==> Value(digits).value < 0x1_0000_0000_0000_0000)
    ensures b != [] && b[0] != 43 ==> ParseU64([43] + b) == ParseU64(b)
  {
    ValueIsDigits(b);
    if b != [] {
      ValueIsDigits(b[1..]);
      assert ([43] + b)[1..] == b;
    }
  }

  lemma {:induction false} ValueIsDigits(b: Bytes)
    ensures Value(b).Some? <==> forall i :: 0 <= i < |b| ==> 48 <= b[i] <= 57
  {
    if b != [] {
      ValueIsDigits(Front(b));
      assert forall i :: 0 <= i < |b| - 1 ==> Front(b)[i] == b[i];
    }
  }

  // ------------------------------------------------------------------- fields

  /** Where `x` first is, or the end. */
  function Index(b: Bytes, x: byte): (i: nat)
    ensures i <= |b| && x !in b[..i] && (i < |b| ==> b[i] == x)
  {
    if b == [] then 0
    else if b[0] == x then 0
    else
      var i := Index(b[1..], x);
      assert b[..i + 1] == [b[0]] + b[1..][..i];
      i + 1
  }

  lemma IndexIs(a: Bytes, x: byte, rest: Bytes)
    requires x !in a
    ensures Index(a + [x] + rest, x) == |a| && Index(a, x) == |a|
  {
    var b := a + [x] + rest;
    var i := Index(b, x);
    assert b[|a|] == x && forall j :: 0 <= j < |a| ==> b[j] == a[j];
    assert forall j :: 0 <= j < i ==> b[j] in b[..i];
  }

  function Split(b: Bytes, sep: byte): (ps: seq<Bytes>)
    ensures ps != []
  {
    var i := Index(b, sep);
    if i == |b| then [b] else [b[..i]] + Split(b[i + 1..], sep)
  }

  function Join(ps: seq<Bytes>, sep: byte): Bytes
    requires ps != []
  {
    if |ps| == 1 then ps[0] else ps[0] + [sep] + Join(ps[1..], sep)
  }

  lemma SplitFirst(p: Bytes, sep: byte, rest: Bytes)
    requires sep !in p
    ensures Split(p + [sep] + rest, sep) == [p] + Split(rest, sep) && Split(p, sep) == [p]
  {
    var b := p + [sep] + rest;
    IndexIs(p, sep, rest);
    assert b[..|p|] == p && b[|p| + 1..] == rest;
  }

  lemma {:induction false} SplitJoined(ps: seq<Bytes>, sep: byte)
    requires ps != [] && forall i :: 0 <= i < |ps| ==> sep !in ps[i]
    ensures Split(Join(ps, sep), sep) == ps
  {
    hide Split;
    if |ps| == 1 {
      SplitFirst(ps[0], sep, []);
    } else {
      SplitFirst(ps[0], sep, Join(ps[1..], sep));
      SplitJoined(ps[1..], sep);
      assert ps == [ps[0]] + ps[1..];
    }
  }

  datatype Field = Field(key: Bytes, value: Bytes)

  function FieldBytes(f: Field): Bytes {
    f.key + [EQUALS] + f.value
  }

  /** The fields of a record; a part with no `=` is not one. */
  function FieldsIn(x: Text, parts: seq<Bytes>): seq<Field> {
    if parts == [] then []
    else
      var s := x.lossy(Last(parts));
      var i := Index(s, EQUALS);
      FieldsIn(x, Front(parts)) + if i == |s| then [] else [Field(s[..i], s[i + 1..])]
  }

  /** The first field of a name. */
  function Get(fs: seq<Field>, key: Bytes): Option<Bytes> {
    if fs == [] then None else if fs[0].key == key then Some(fs[0].value) else Get(fs[1..], key)
  }

  // ------------------------------------------------------------------- reading

  /** What one record comes to. */
  datatype Parsed = Skip | Said(report: Report) | Bad(error: ReportError)

  function ParseHello(x: Text, fs: seq<Field>): Parsed {
    var v := if Get(fs, K_V).Some? then Get(fs, K_V).value else [];
    var diet := if Get(fs, K_READS).Some? then Get(fs, K_READS).value else V_RECORDS;
    if v != V_ONE then Bad(BadVersion(v))
    else if diet != V_RECORDS && diet != V_CHUNKS then Bad(BadDiet(diet))
    else
      var d := if diet == V_RECORDS then Records else Chunks;
      match Get(fs, K_HOLDS)
      case None => Said(Hello(d, map[]))
      case Some(json) =>
        match x.parseHolds(json)
        case None => Bad(BadHolds)
        case Some(holds) => Said(Hello(d, holds))
  }

  function ParseProgress(fs: seq<Field>): Parsed {
    var id, offset, taken := Get(fs, K_ID), Get(fs, K_OFFSET), Get(fs, K_TAKEN);
    if id.None? then Bad(NoStore)
    else if offset.None? then Bad(NoOffset)
    else if ParseU64(offset.value).None? then Bad(BadOffset)
    else
      var at := ParseU64(offset.value).value;
      match taken
      case None => Said(Progress(id.value, at, None))
      case Some(v) =>
        match ParseU64(v)
        case None => Bad(BadTaken)
        case Some(t) => if t < at then Bad(TakenBehind) else Said(Progress(id.value, at, Some(t)))
  }

  function ParseNote(x: Text, fs: seq<Field>): Parsed {
    var text, offset := Get(fs, K_TEXT), Get(fs, K_OFFSET);
    if text.None? then Bad(NoText)
    else
      match x.parseText(text.value)
      case None => Bad(BadText)
      case Some(t) => Said(Note(Get(fs, K_ID), if offset.None? then None else ParseU64(offset.value), t))
  }

  function Interpret(x: Text, kind: Bytes, fs: seq<Field>, saidHello: bool): Parsed {
    if kind == HELLO then ParseHello(x, fs)
    else if kind == PROGRESS then if saidHello then ParseProgress(fs) else Bad(BeforeHello)
    else if kind == NOTE then if saidHello then ParseNote(x, fs) else Bad(BeforeHello)
    else Skip
  }

  /** A record without its mark and its NUL. */
  function ParseBody(x: Text, body: Bytes, saidHello: bool): Parsed {
    var parts := Split(body, US);
    Interpret(x, parts[0], FieldsIn(x, parts[1..]), saidHello)
  }

  function ParseHeader(x: Text, header: Bytes, saidHello: bool): Parsed
    requires header != []
  {
    if Last(header) != NUL then Bad(Truncated)
    else if Front(header) == [] || header[0] != RS then Bad(Unmarked)
    else ParseBody(x, Front(header)[1..], saidHello)
  }

  /** The length of the next header: up to a NUL, the end or the limit. */
  function HeaderLen(s: Bytes): (n: nat)
    ensures n <= |s| && n <= MAX_RECORD_HEADER && (n == 0 <==> s == [])
  {
    var window := s[..Min(|s|, MAX_RECORD_HEADER)];
    var i := Index(window, NUL);
    if i < |window| then i + 1 else |window|
  }

  /** Where a reader stands: what is still to come, and whether hello has been said. */
  datatype State = State(input: Bytes, saidHello: bool)

  datatype Next = Next(state: State, result: Result<Option<Report>, ReportError>)

  function NextReport(x: Text, s: State): Next
    decreases |s.input|
  {
    var n := HeaderLen(s.input);
    if n == 0 then Next(s, Ok(None))
    else
      var header, rest := s.input[..n], s.input[n..];
      if n == MAX_RECORD_HEADER && Last(header) != NUL then Next(s.(input := rest), Err(HeaderTooLong))
      else
        match ParseHeader(x, header, s.saidHello)
        case Bad(e) => Next(s.(input := rest), Err(e))
        case Said(r) => Next(State(rest, s.saidHello || r.Hello?), Ok(Some(r)))
        case Skip => NextReport(x, s.(input := rest))
  }

  lemma {:induction false} NextShrinks(x: Text, s: State)
    ensures var n := NextReport(x, s);
            && |n.state.input| <= |s.input|
            && (n.result.Ok? && n.result.value.Some? ==> |n.state.input| < |s.input|)
    decreases |s.input|
  {
    var n := HeaderLen(s.input);
    if n > 0 {
      var header, rest := s.input[..n], s.input[n..];
      if !(n == MAX_RECORD_HEADER && Last(header) != NUL) && ParseHeader(x, header, s.saidHello).Skip? {
        NextShrinks(x, s.(input := rest));
      }
    }
    hide ParseHeader;
  }

  /** Everything a consumer says, up to the end of its output or the first error. */
  datatype Heard = Heard(reports: seq<Report>, error: Option<ReportError>)

  function ReadAll(x: Text, s: State): Heard
    decreases |s.input|
  {
    var n := NextReport(x, s);
    NextShrinks(x, s);
    match n.result
    case Err(e) => Heard([], Some(e))
    case Ok(None) => Heard([], None)
    case Ok(Some(r)) => var h := ReadAll(x, n.state); h.(reports := [r] + h.reports)
  }

  // ------------------------------------------------------------------ emitting

  /** What a consumer can be made to say by the emitters. */
  datatype Message =
    | SayHello(diet: Diet, holds: Holds)
    | SayProgress(id: Bytes, offset: u64)
    | SayNote(noteId: Option<Bytes>, noteOffset: Option<u64>, text: Bytes)

  function ReportOf(m: Message): Report {
    match m
    case SayHello(diet, holds) => Hello(diet, holds)
    case SayProgress(id, offset) => Progress(id, offset, None)
    case SayNote(id, offset, text) => Note(id, offset, text)
  }

  function KindOf(m: Message): Bytes {
    match m
    case SayHello(_, _) => HELLO
    case SayProgress(_, _) => PROGRESS
    case SayNote(_, _, _) => NOTE
  }

  function FieldsOf(x: Text, m: Message): seq<Field> {
    match m
    case SayHello(diet, holds) =>
      [Field(K_V, V_ONE), Field(K_READS, diet.Name())]
      + if holds == map[] then [] else [Field(K_HOLDS, x.holdsOf(holds))]
    case SayProgress(id, offset) => [Field(K_ID, id), Field(K_OFFSET, Digits(offset))]
    case SayNote(id, offset, text) =>
      (if id.Some? then [Field(K_ID, id.value)] else [])
      + (if offset.Some? then [Field(K_OFFSET, Digits(offset.value))] else [])
      + [Field(K_TEXT, x.textOf(text))]
  }

  function Record(kind: Bytes, fs: seq<Field>): Bytes {
    [RS] + Join([kind] + Map(FieldBytes, fs), US) + [NUL]
  }

  function Emit(x: Text, m: Message): Bytes {
    Record(KindOf(m), FieldsOf(x, m))
  }
}
