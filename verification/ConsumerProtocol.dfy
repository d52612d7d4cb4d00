/**
 * The reader of a consumer's reports, and what the protocol promises: what the
 * emitters write is what is read, records of kinds this build does not know
 * change nothing, and nothing is acted on before a hello.
 */
module ConsumerProtocol {
  import opened Common
  import opened LittleEndian
  import F = FrameModel
  import opened ConsumerModel

  class Reader {
    const x: Text
    var input: Bytes
    var buf: Bytes
    var saidHello: bool

    function Where(): State
      reads this
    {
      State(input, saidHello)
    }

    constructor (x: Text, input: Bytes)
      ensures Where() == State(input, false) && this.x == x
    {
      this.x, this.input, buf, saidHello := x, input, [], false;
    }

    method NextReport() returns (r: Result<Option<Report>, ReportError>)
      modifies this
      ensures Next(Where(), r) == ConsumerModel.NextReport(x, old(Where()))
    {
      hide ParseHello, ParseProgress, ParseNote, FieldsIn, Split, HeaderLen;
      while true
        invariant ConsumerModel.NextReport(x, Where()) == ConsumerModel.NextReport(x, old(Where()))
        decreases |input|
      {
        var n := HeaderLen(input);
        if n == 0 {
          return Ok(None);
        }
        buf := input[..n];
        input := input[n..];
        if n == MAX_RECORD_HEADER && Last(buf) != NUL {
          return Err(HeaderTooLong);
        }
        var end := Last(buf);
        buf := Front(buf);
        if end != NUL {
          return Err(Truncated);
        }
        if buf == [] || buf[0] != RS {
          return Err(Unmarked);
        }
        var parts := Split(buf[1..], US);
        var kind, fields := parts[0], FieldsIn(x, parts[1..]);
        var parsed := Skip;
        if kind == HELLO {
          parsed := ParseHello(x, fields);
          if parsed.Said? {
            HelloIsHello(x, fields);
            saidHello := true;
          }
        } else if kind == PROGRESS {
          if !saidHello {
            return Err(BeforeHello);
          }
          parsed := ParseProgress(fields);
        } else if kind == NOTE {
          if !saidHello {
            return Err(BeforeHello);
          }
          parsed := ParseNote(x, fields);
        }
        match parsed {
          case Said(report) => return Ok(Some(report));
          case Bad(e) => return Err(e);
          case Skip => SaidIsNotSkip(x, fields);
        }
      }
    }
  }

  lemma HelloIsHello(x: Text, fs: seq<Field>)
    ensures ParseHello(x, fs).Said? ==> ParseHello(x, fs).report.Hello?
  {
  }

  lemma SaidIsNotSkip(x: Text, fs: seq<Field>)
    ensures !ParseHello(x, fs).Skip? && !ParseProgress(fs).Skip? && !ParseNote(x, fs).Skip?
  {
  }

  // ------------------------------------------------------------------- UTF-8

  lemma CharLenConcat(a: Bytes, b: Bytes)
    requires F.CharLen(a) > 0
    ensures F.CharLen(a + b) == F.CharLen(a)
  {
  }

  lemma {:induction false} Utf8Concat(a: Bytes, b: Bytes)
    requires F.Utf8(a) && F.Utf8(b)
    ensures F.Utf8(a + b)
    decreases |a|
  {
    if a == [] {
      assert a + b == b;
    } else {
      var n := F.CharLen(a);
      hide F.CharLen;
      CharLenConcat(a, b);
      Utf8Concat(a[n..], b);
      assert (a + b)[n..] == a[n..] + b;
    }
  }

  lemma {:induction false} AsciiIsUtf8(b: Bytes)
    requires forall i :: 0 <= i < |b| ==> b[i] < 0x80
    ensures F.Utf8(b)
  {
    if b != [] {
      AsciiIsUtf8(b[1..]);
    }
  }

  // ---------------------------------------------------------- one record back

  predicate Plain(b: Bytes) {
    NUL !in b && US !in b && F.Utf8(b)
  }

  /** The names the emitters use. */
  predicate Named(key: Bytes) {
    key == K_V || key == K_READS || key == K_HOLDS || key == K_ID || key == K_OFFSET || key == K_TEXT
  }

  /** A field that reads back: one of those names, and a value without the bytes that frame. */
  predicate Clean(f: Field) {
    Named(f.key) && Plain(f.value)
  }

  predicate AllClean(fs: seq<Field>) {
    forall i :: 0 <= i < |fs| ==> Clean(fs[i])
  }

  /** No part holds a byte that frames. */
  predicate Unframed(ps: seq<Bytes>) {
    forall i :: 0 <= i < |ps| ==> NUL !in ps[i] && US !in ps[i]
  }

  lemma AsciiIsPlain(b: Bytes)
    requires forall i :: 0 <= i < |b| ==> 0x20 <= b[i] < 0x80
    ensures Plain(b)
  {
    AsciiIsUtf8(b);
  }

  lemma {:induction false} NameIsPlain(key: Bytes)
    requires Named(key)
    ensures Plain(key) && EQUALS !in key
  {
    hide Plain;
    AsciiIsPlain(key);
  }

  lemma FieldIsText(f: Field)
    requires Clean(f)
    ensures NUL !in FieldBytes(f) && US !in FieldBytes(f) && F.Utf8(FieldBytes(f))
  {
    NameIsPlain(f.key);
    AsciiIsUtf8([EQUALS]);
    hide F.Utf8;
    Utf8Concat(f.key, [EQUALS]);
    Utf8Concat(f.key + [EQUALS], f.value);
  }

  lemma FieldBack(x: Text, f: Field)
    requires Sound(x) && Clean(f)
    ensures var s := x.lossy(FieldBytes(f));
            var i := Index(s, EQUALS);
            i < |s| && Field(s[..i], s[i + 1..]) == f
  {
    hide F.Utf8, Index, Plain, Named;
    FieldIsText(f);
    NameIsPlain(f.key);
    assert x.lossy(FieldBytes(f)) == FieldBytes(f);
    var s := FieldBytes(f);
    IndexIs(f.key, EQUALS, f.value);
    assert s[..|f.key|] == f.key && s[|f.key| + 1..] == f.value;
  }

  lemma FieldsInMore(x: Text, parts: seq<Bytes>, p: Bytes, f: Field)
    requires var s := x.lossy(p);
             var i := Index(s, EQUALS);
             i < |s| && Field(s[..i], s[i + 1..]) == f
    ensures FieldsIn(x, parts + [p]) == FieldsIn(x, parts) + [f]
  {
    hide Index;
    assert Front(parts + [p]) == parts && Last(parts + [p]) == p;
  }

  lemma NoFields(x: Text)
    ensures FieldsIn(x, []) == []
  {
  }

  lemma MapLast(fs: seq<Field>)
    requires fs != []
    ensures Map(FieldBytes, fs) == Map(FieldBytes, Front(fs)) + [FieldBytes(Last(fs))]
  {
  }

  lemma {:induction false} FieldsBack(x: Text, fs: seq<Field>)
    requires Sound(x) && AllClean(fs)
    ensures FieldsIn(x, Map(FieldBytes, fs)) == fs
  {
    hide Sound, Clean, FieldBytes, FieldsIn, Index;
    if fs == [] {
      NoFields(x);
    } else {
      var parts := Map(FieldBytes, Front(fs));
      FieldBack(x, Last(fs));
      FieldsBack(x, Front(fs));
      FieldsInMore(x, parts, FieldBytes(Last(fs)), Last(fs));
      MapLast(fs);
    }
  }

  lemma FieldsAreUnframed(fs: seq<Field>)
    requires AllClean(fs)
    ensures Unframed(Map(FieldBytes, fs))
  {
    forall i | 0 <= i < |fs|
      ensures NUL !in FieldBytes(fs[i]) && US !in FieldBytes(fs[i])
    {
      FieldIsText(fs[i]);
    }
    hide FieldBytes;
  }

  lemma {:induction false} JoinedHasNoNul(ps: seq<Bytes>)
    requires ps != [] && forall i :: 0 <= i < |ps| ==> NUL !in ps[i]
    ensures NUL !in Join(ps, US)
  {
    if |ps| > 1 {
      JoinedHasNoNul(ps[1..]);
    }
  }

  function BodyOf(kind: Bytes, fs: seq<Field>): Bytes {
    Join([kind] + Map(FieldBytes, fs), US)
  }

  lemma {:induction false} BodyBack(x: Text, kind: Bytes, fs: seq<Field>, said: bool)
    requires Sound(x) && NUL !in kind && US !in kind && AllClean(fs)
    ensures NUL !in BodyOf(kind, fs)
    ensures ParseBody(x, BodyOf(kind, fs), said) == Interpret(x, kind, fs, said)
  {
    hide Sound, AllClean, FieldBytes, FieldsIn, Interpret, Split, Join, Map;
    var fields := Map(FieldBytes, fs);
    var ps := [kind] + fields;
    FieldsBack(x, fs);
    FieldsAreUnframed(fs);
    assert ps[1..] == fields && forall i :: 0 < i < |ps| ==> ps[i] == fields[i - 1];
    assert Unframed(ps);
    JoinedHasNoNul(ps);
    SplitJoined(ps, US);
  }

  /** A record on the wire, whatever follows it. */
  lemma HeaderBack(body: Bytes, rest: Bytes, n: nat)
    requires NUL !in body && n == |body| + 2
    ensures var s := [RS] + body + [NUL] + rest;
            if n > MAX_RECORD_HEADER then HeaderLen(s) == MAX_RECORD_HEADER && Last(s[..MAX_RECORD_HEADER]) != NUL
            else HeaderLen(s) == n && s[..n] == [RS] + body + [NUL] && s[n..] == rest
  {
    var head := [RS] + body;
    var s := head + [NUL] + rest;
    assert NUL !in head;
    IndexIs(head, NUL, rest);
    if n <= MAX_RECORD_HEADER {
      var window := s[..Min(|s|, MAX_RECORD_HEADER)];
      assert window == head + [NUL] + window[n..];
      IndexIs(head, NUL, window[n..]);
    } else {
      var window := s[..MAX_RECORD_HEADER];
      assert window == head[..MAX_RECORD_HEADER];
      assert forall i :: 0 <= i < |window| ==> window[i] in head;
    }
  }

  lemma NextIs(x: Text, body: Bytes, rest: Bytes, said: bool, n: nat)
    requires NUL !in body && n == |body| + 2
    ensures var s := State([RS] + body + [NUL] + rest, said);
            var after :=
              match ParseBody(x, body, said)
              case Bad(e) => Next(State(rest, said), Err(e))
              case Said(r) => Next(State(rest, said || r.Hello?), Ok(Some(r)))
              case Skip => NextReport(x, State(rest, said));
            && (n > MAX_RECORD_HEADER ==> NextReport(x, s).result == Err(HeaderTooLong))
            && (n <= MAX_RECORD_HEADER ==> NextReport(x, s) == after)
  {
    HeaderBack(body, rest, n);
    hide ParseBody, HeaderLen;
    var header := [RS] + body + [NUL];
    assert Front(header) == [RS] + body;
    assert Front(header)[1..] == body;
  }

  // --------------------------------------------------------- one message back

  /** Ids free of the bytes that frame, and text that is text. */
  predicate Sayable(m: Message) {
    match m
    case SayHello(_, _) => true
    case SayProgress(id, _) => Plain(id)
    case SayNote(id, _, text) => (id.Some? ==> Plain(id.value)) && F.Utf8(text)
  }

  lemma HoldsAsJson(x: Text, holds: Holds)
    requires Sound(x)
    ensures x.parseHolds(x.holdsOf(holds)) == Some(holds) && Plain(x.holdsOf(holds))
  {
    hide F.Utf8;
    assert Printable(x.holdsOf(holds));
  }

  lemma TextAsJson(x: Text, text: Bytes)
    requires Sound(x) && F.Utf8(text)
    ensures x.parseText(x.textOf(text)) == Some(text) && Plain(x.textOf(text))
  {
    hide F.Utf8;
    assert Printable(x.textOf(text));
  }

  lemma {:induction false} FieldsAreClean(x: Text, m: Message)
    requires Sound(x) && Sayable(m)
    ensures AllClean(FieldsOf(x, m))
  {
    hide Sound, Plain, F.Utf8, Digits;
    match m
    case SayHello(diet, holds) =>
      HoldsAsJson(x, holds);
      AsciiIsPlain(V_ONE);
      AsciiIsPlain(diet.Name());
    case SayProgress(_, offset) =>
      AsciiIsPlain(Digits(offset));
    case SayNote(_, offset, text) =>
      TextAsJson(x, text);
      if offset.Some? {
        AsciiIsPlain(Digits(offset.value));
      }
  }

  /** A field among the rest, by its name. */
  lemma GetFirst(f: Field, fs: seq<Field>, key: Bytes)
    ensures Get([f] + fs, key) == if f.key == key then Some(f.value) else Get(fs, key)
  {
    assert ([f] + fs)[1..] == fs;
  }

  lemma GetNone(key: Bytes)
    ensures Get([], key) == None
  {
  }

  lemma {:induction false} HelloBack(x: Text, diet: Diet, holds: Holds)
    requires Sound(x)
    ensures ParseHello(x, FieldsOf(x, SayHello(diet, holds))) == Said(Hello(diet, holds))
  {
    hide Sound, Get, Plain;
    HoldsAsJson(x, holds);
    var tail := if holds == map[] then [] else [Field(K_HOLDS, x.holdsOf(holds))];
    var fs := FieldsOf(x, SayHello(diet, holds));
    assert fs == [Field(K_V, V_ONE)] + ([Field(K_READS, diet.Name())] + tail);
    GetTwo(Field(K_V, V_ONE), Field(K_READS, diet.Name()), tail);
    if holds == map[] {
      GetNone(K_HOLDS);
    } else {
      assert tail == tail + [];
      GetFirst(Field(K_HOLDS, x.holdsOf(holds)), [], K_HOLDS);
    }
  }

  lemma GetTwo(f0: Field, f1: Field, tail: seq<Field>)
    requires f0.key == K_V && f1.key == K_READS
    ensures var fs := [f0] + ([f1] + tail);
            Get(fs, K_V) == Some(f0.value) && Get(fs, K_READS) == Some(f1.value) && Get(fs, K_HOLDS) == Get(tail, K_HOLDS)
  {
    hide Get;
    assert K_V != K_READS && K_V != K_HOLDS && K_READS != K_HOLDS;
    GetFirst(f0, [f1] + tail, K_V);
    GetFirst(f0, [f1] + tail, K_READS);
    GetFirst(f1, tail, K_READS);
    GetFirst(f0, [f1] + tail, K_HOLDS);
    GetFirst(f1, tail, K_HOLDS);
  }

  lemma ProgressBack(x: Text, id: Bytes, offset: u64)
    ensures ParseProgress(FieldsOf(x, SayProgress(id, offset))) == Said(Progress(id, offset, None))
  {
    ParseDigits(offset);
    hide Get, ParseU64, Digits;
    var f0, f1 := Field(K_ID, id), Field(K_OFFSET, Digits(offset));
    assert FieldsOf(x, SayProgress(id, offset)) == [f0] + ([f1] + []);
    assert K_ID != K_OFFSET && K_ID != K_TAKEN && K_OFFSET != K_TAKEN;
    GetFirst(f0, [f1] + [], K_ID);
    GetFirst(f0, [f1] + [], K_OFFSET);
    GetFirst(f1, [], K_OFFSET);
    GetFirst(f0, [f1] + [], K_TAKEN);
    GetFirst(f1, [], K_TAKEN);
    GetNone(K_TAKEN);
  }

  lemma NoteBack(x: Text, id: Option<Bytes>, offset: Option<u64>, text: Bytes)
    requires Sound(x) && F.Utf8(text)
    ensures ParseNote(x, FieldsOf(x, SayNote(id, offset, text))) == Said(Note(id, offset, text))
  {
    hide Get, ParseU64, Digits, Sound, F.Utf8, Plain;
    TextAsJson(x, text);
    if offset.Some? {
      ParseDigits(offset.value);
    }
    var f2 := Field(K_TEXT, x.textOf(text));
    var t := [f2] + [];
    var u := if offset.Some? then [Field(K_OFFSET, Digits(offset.value))] + t else t;
    var fs := FieldsOf(x, SayNote(id, offset, text));
    var all := if id.Some? then [Field(K_ID, id.value)] + u else u;
    assert fs == all;
    GetAll(u, all, id, f2, offset);
  }

  lemma GetAll(u: seq<Field>, all: seq<Field>, id: Option<Bytes>, f: Field, offset: Option<u64>)
    requires f.key == K_TEXT
    requires u == if offset.Some? then [Field(K_OFFSET, Digits(offset.value))] + ([f] + []) else [f] + []
    requires all == if id.Some? then [Field(K_ID, id.value)] + u else u
    ensures Get(all, K_TEXT) == Some(f.value) && Get(all, K_ID) == id
    ensures Get(all, K_OFFSET) == if offset.Some? then Some(Digits(offset.value)) else None
  {
    hide Get, Digits;
    assert K_ID != K_OFFSET && K_ID != K_TEXT && K_OFFSET != K_TEXT;
    GetTail([f] + [], u, K_ID, f, offset);
    GetTail([f] + [], u, K_OFFSET, f, offset);
    GetTail([f] + [], u, K_TEXT, f, offset);
    if id.Some? {
      GetFirst(Field(K_ID, id.value), u, K_ID);
      GetFirst(Field(K_ID, id.value), u, K_OFFSET);
      GetFirst(Field(K_ID, id.value), u, K_TEXT);
    }
  }

  lemma GetTail(t: seq<Field>, u: seq<Field>, key: Bytes, f: Field, offset: Option<u64>)
    requires t == [f] + [] && f.key == K_TEXT && (key == K_ID || key == K_OFFSET || key == K_TEXT)
    requires u == if offset.Some? then [Field(K_OFFSET, Digits(offset.value))] + t else t
    ensures Get(u, key) == if key == K_TEXT then Some(f.value)
                           else if key == K_OFFSET && offset.Some? then Some(Digits(offset.value))
                           else None
  {
    hide Get, Digits;
    assert K_ID != K_OFFSET && K_ID != K_TEXT && K_OFFSET != K_TEXT;
    GetFirst(f, [], key);
    GetNone(key);
    if offset.Some? {
      GetFirst(Field(K_OFFSET, Digits(offset.value)), t, key);
    }
  }

  lemma {:induction false} MessageBack(x: Text, m: Message, said: bool)
    requires Sound(x) && Sayable(m) && (said || m.SayHello?)
    ensures Interpret(x, KindOf(m), FieldsOf(x, m), said) == Said(ReportOf(m))
  {
    hide ParseHello, ParseProgress, ParseNote, FieldsOf, Sound;
    assert HELLO != PROGRESS && HELLO != NOTE && PROGRESS != NOTE;
    match m
    case SayHello(diet, holds) => HelloBack(x, diet, holds);
    case SayProgress(id, offset) => ProgressBack(x, id, offset);
    case SayNote(id, offset, text) => NoteBack(x, id, offset, text);
  }

  lemma JoinedThree(a: Bytes, b: Bytes, c: Bytes, sep: byte)
    ensures Join([a], sep) == a
    ensures Join([a, b], sep) == a + [sep] + b
    ensures Join([a, b, c], sep) == a + [sep] + (b + [sep] + c)
  {
    assert [a, b][1..] == [b] && [a, b, c][1..] == [b, c] && [b, c][1..] == [c];
    assert Join([c], sep) == c && Join([b, c], sep) == b + [sep] + c;
    assert Join([a, b, c], sep) == a + [sep] + Join([b, c], sep);
  }

  /** A progress message, byte for byte: RS, `progress`, and `id=` and `offset=` each after a US, and a NUL. */
  lemma ProgressOnWire(x: Text, id: Bytes, offset: u64)
    ensures Emit(x, SayProgress(id, offset))
         == [0x1E] + ([112, 114, 111, 103, 114, 101, 115, 115] + [0x1F]
                      + (([105, 100] + [61] + id) + [0x1F] + ([111, 102, 102, 115, 101, 116] + [61] + Digits(offset))))
            + [0]
  {
    var f0, f1 := Field(K_ID, id), Field(K_OFFSET, Digits(offset));
    assert FieldsOf(x, SayProgress(id, offset)) == [f0, f1];
    hide Digits;
    MappedTwo(f0, f1);
    JoinedThree(PROGRESS, FieldBytes(f0), FieldBytes(f1), US);
    hide Join, Map;
    assert [PROGRESS] + [FieldBytes(f0), FieldBytes(f1)] == [PROGRESS, FieldBytes(f0), FieldBytes(f1)];
  }

  lemma MappedTwo(f: Field, g: Field)
    ensures Map(FieldBytes, [f, g]) == [FieldBytes(f), FieldBytes(g)]
  {
    assert Front([f, g]) == [f] && Front([f]) == [];
  }

  /** What a hello says it reads, as a field. */
  function ReadsBytes(diet: Diet): Bytes {
    [114, 101, 97, 100, 115] + [61]
    + if diet == Records then [114, 101, 99, 111, 114, 100, 115] else [99, 104, 117, 110, 107, 115]
  }

  /** A hello that claims nothing: `hello`, `v=1`, and `reads=` and what it reads. */
  lemma HelloOnWire(x: Text, diet: Diet)
    ensures Emit(x, SayHello(diet, map[]))
         == [0x1E] + ([104, 101, 108, 108, 111] + [0x1F] + (([118] + [61] + [49]) + [0x1F] + ReadsBytes(diet))) + [0]
  {
    var f0, f1 := Field(K_V, V_ONE), Field(K_READS, diet.Name());
    assert FieldBytes(f1) == ReadsBytes(diet);
    assert FieldsOf(x, SayHello(diet, map[])) == [f0, f1];
    MappedTwo(f0, f1);
    JoinedThree(HELLO, FieldBytes(f0), FieldBytes(f1), US);
    hide Join, Map, ReadsBytes;
    assert [HELLO] + [FieldBytes(f0), FieldBytes(f1)] == [HELLO, FieldBytes(f0), FieldBytes(f1)];
  }

  /** And one that claims something: the same, and `holds=` with what it claims as JSON. */
  lemma ClaimsOnWire(x: Text, diet: Diet, holds: Holds)
    requires holds != map[]
    ensures Emit(x, SayHello(diet, holds))
         == [0x1E] + ([104, 101, 108, 108, 111] + [0x1F]
                      + (([118] + [61] + [49]) + [0x1F]
                         + (ReadsBytes(diet) + [0x1F] + ([104, 111, 108, 100, 115] + [61] + x.holdsOf(holds)))))
            + [0]
  {
    var f0, f1, f2 := Field(K_V, V_ONE), Field(K_READS, diet.Name()), Field(K_HOLDS, x.holdsOf(holds));
    assert FieldBytes(f1) == ReadsBytes(diet);
    MappedThree(f0, f1, f2);
    JoinedFour(HELLO, FieldBytes(f0), FieldBytes(f1), FieldBytes(f2), US);
    hide Join, Map, ReadsBytes;
    assert FieldsOf(x, SayHello(diet, holds)) == [f0, f1, f2];
    assert [HELLO] + [FieldBytes(f0), FieldBytes(f1), FieldBytes(f2)]
        == [HELLO, FieldBytes(f0), FieldBytes(f1), FieldBytes(f2)];
  }

  lemma MappedThree(f: Field, g: Field, h: Field)
    ensures Map(FieldBytes, [f, g, h]) == [FieldBytes(f), FieldBytes(g), FieldBytes(h)]
  {
    MappedTwo(f, g);
    assert Front([f, g, h]) == [f, g];
  }

  lemma JoinedFour(a: Bytes, b: Bytes, c: Bytes, d: Bytes, sep: byte)
    ensures Join([a, b, c, d], sep) == a + [sep] + (b + [sep] + (c + [sep] + d))
  {
    JoinedThree(b, c, d, sep);
    assert [a, b, c, d][1..] == [b, c, d];
  }

  /** A note about nothing in particular: `note`, and `text=` with its text as JSON. */
  lemma NoteOnWire(x: Text, text: Bytes)
    ensures Emit(x, SayNote(None, None, text))
         == [0x1E] + ([110, 111, 116, 101] + [0x1F] + ([116, 101, 120, 116] + [61] + x.textOf(text))) + [0]
  {
    var f := Field(K_TEXT, x.textOf(text));
    assert FieldsOf(x, SayNote(None, None, text)) == [f] && Front([f]) == [];
    assert Map(FieldBytes, [f]) == [FieldBytes(f)];
    JoinedThree(NOTE, FieldBytes(f), [], US);
    assert [NOTE] + [FieldBytes(f)] == [NOTE, FieldBytes(f)];
  }

  /** A hello of another version, or that reads what there is not, is refused; one that does not say reads records. */
  lemma OtherHellosAreRefused(x: Text, fs: seq<Field>)
    ensures var p := ParseHello(x, fs);
            && (p.Said? ==> Get(fs, K_V) == Some([49]))
            && (p.Said? && p.report.diet == Records ==>
                  Get(fs, K_READS) in {None, Some([114, 101, 99, 111, 114, 100, 115])})
            && (p.Said? && p.report.diet == Chunks ==> Get(fs, K_READS) == Some([99, 104, 117, 110, 107, 115]))
    ensures Get(fs, K_V) != Some([49]) ==> ParseHello(x, fs).Bad? && ParseHello(x, fs).error.BadVersion?
  {
    hide Get;
  }

  /** What ends without a NUL is cut short, if it could yet have ended in one, and else too long. */
  lemma UnendedIsRefused(x: Text, s: State)
    requires s.input != [] && NUL !in s.input
    ensures NextReport(x, s).result == Err(if |s.input| < 0x10_0000 then Truncated else HeaderTooLong)
  {
    var n := HeaderLen(s.input);
    var window := s.input[..Min(|s.input|, 0x10_0000)];
    assert Index(window, NUL) == |window|;
    assert Last(s.input[..n]) in s.input;
    UnmarkedIsRefused(x, s.input[..n], s.saidHello);
    hide ParseHeader, Index;
  }

  /** A record that does not end in a NUL is cut short, and one that does not begin with RS is not a message. */
  lemma UnmarkedIsRefused(x: Text, header: Bytes, said: bool)
    requires header != []
    ensures Last(header) != 0 ==> ParseHeader(x, header, said) == Bad(Truncated)
    ensures Last(header) == 0 && header[0] != 0x1E ==> ParseHeader(x, header, said) == Bad(Unmarked)
  {
    hide ParseBody;
  }

  /** Reading ends at the first error, and says which it was. */
  lemma ErrorEndsReading(x: Text, s: State)
    requires NextReport(x, s).result.Err?
    ensures ReadAll(x, s) == Heard([], Some(NextReport(x, s).result.error))
  {
    hide NextReport;
  }

  /** An emitted message is read as it was meant if and only if its record is at most 1 MiB. */
  lemma {:induction false} EmittedIsRead(x: Text, m: Message, rest: Bytes, said: bool)
    requires Sound(x) && Sayable(m) && (said || m.SayHello?)
    ensures var n := NextReport(x, State(Emit(x, m) + rest, said));
            n == Next(State(rest, said || m.SayHello?), Ok(Some(ReportOf(m)))) <==> |Emit(x, m)| <= 0x10_0000
    ensures |Emit(x, m)| > 0x10_0000 ==>
              NextReport(x, State(Emit(x, m) + rest, said)).result == Err(HeaderTooLong)
  {
    hide Sound, Sayable, FieldsOf, Interpret, NextReport, ParseBody, AllClean;
    var kind, fs := KindOf(m), FieldsOf(x, m);
    FieldsAreClean(x, m);
    BodyBack(x, kind, fs, said);
    MessageBack(x, m, said);
    var body := BodyOf(kind, fs);
    assert Emit(x, m) == [RS] + body + [NUL];
    NextIs(x, body, rest, said, |body| + 2);
  }

  lemma {:induction false} JoinedHolds(ps: seq<Bytes>, i: nat)
    requires i < |ps|
    ensures |Join(ps, US)| >= |ps[i]|
  {
    if i > 0 {
      JoinedHolds(ps[1..], i - 1);
    }
  }

  /** Nothing checks an id's length: one as long as the limit makes a message no reader takes. */
  lemma LongIdIsRefused(x: Text, offset: u64, rest: Bytes)
    requires Sound(x)
    ensures var m := SayProgress(seq(0x10_0000, i => 97), offset);
            && Sayable(m) && |Emit(x, m)| > 0x10_0000
            && NextReport(x, State(Emit(x, m) + rest, true)).result == Err(HeaderTooLong)
  {
    var id: Bytes := seq(MAX_RECORD_HEADER, i => 97);
    var m := SayProgress(id, offset);
    AsciiIsPlain(id);
    var fs := FieldsOf(x, m);
    var parts := [PROGRESS] + Map(FieldBytes, fs);
    assert fs[0] == Field(K_ID, id) && parts[1] == FieldBytes(fs[0]);
    hide NextReport, Sound, FieldsOf, Join, Plain, F.Utf8;
    JoinedHolds(parts, 1);
    assert |Emit(x, m)| > MAX_RECORD_HEADER;
    EmittedIsRead(x, m, rest, true);
  }

  /**
   * What the emitters never say and any consumer may: how far it has read. It
   * is heard if it is not behind the position, and is refused if it is.
   */
  lemma TakenIsHeard(id: Bytes, offset: u64, taken: u64)
    ensures ParseProgress([Field(K_ID, id), Field(K_OFFSET, Digits(offset)),
                           Field([116, 97, 107, 101, 110], Digits(taken))])
         == if taken < offset then Bad(TakenBehind) else Said(Progress(id, offset, Some(taken)))
  {
    ParseDigits(offset);
    ParseDigits(taken);
    hide Get, ParseU64, Digits;
    var f0, f1, f2 := Field(K_ID, id), Field(K_OFFSET, Digits(offset)), Field(K_TAKEN, Digits(taken));
    assert [f0, f1, f2] == [f0] + ([f1] + ([f2] + []));
    assert K_ID != K_OFFSET && K_ID != K_TAKEN && K_OFFSET != K_TAKEN;
    GetFirst(f0, [f1] + ([f2] + []), K_ID);
    GetFirst(f0, [f1] + ([f2] + []), K_OFFSET);
    GetFirst(f1, [f2] + [], K_OFFSET);
    GetFirst(f0, [f1] + ([f2] + []), K_TAKEN);
    GetFirst(f1, [f2] + [], K_TAKEN);
    GetFirst(f2, [], K_TAKEN);
  }

  // ------------------------------------------------------------ whole streams

  /** A record on the wire: a message, or one of a kind this build does not know. */
  datatype Item = Says(m: Message) | Other(body: Bytes)

  function Wire(x: Text, i: Item): Bytes {
    match i
    case Says(m) => Emit(x, m)
    case Other(body) => [RS] + body + [NUL]
  }

  function WireAll(x: Text, items: seq<Item>): Bytes {
    if items == [] then [] else Wire(x, items[0]) + WireAll(x, items[1..])
  }

  predicate Foreign(body: Bytes) {
    NUL !in body && var kind := Split(body, US)[0]; kind != HELLO && kind != PROGRESS && kind != NOTE
  }

  ghost predicate Wellformed(x: Text, i: Item) {
    && |Wire(x, i)| <= MAX_RECORD_HEADER
    && match i
       case Says(m) => Sayable(m)
       case Other(body) => Foreign(body)
  }

  function Reports(items: seq<Item>): seq<Report> {
    if items == [] then []
    else if items[0].Says? then [ReportOf(items[0].m)] + Reports(items[1..])
    else Reports(items[1..])
  }

  /** Hello comes before anything else that is said. */
  predicate OpensWithHello(items: seq<Item>) {
    items == [] || (if items[0].Says? then items[0].m.SayHello? else OpensWithHello(items[1..]))
  }

  lemma ForeignIsSkipped(x: Text, body: Bytes, rest: Bytes, said: bool)
    requires Foreign(body) && |body| + 2 <= MAX_RECORD_HEADER
    ensures NextReport(x, State([RS] + body + [NUL] + rest, said)) == NextReport(x, State(rest, said))
  {
    hide Split, NextReport;
    NextIs(x, body, rest, said, |body| + 2);
  }

  /** What is emitted is what is read; records of unknown kinds, wherever they stand, change nothing. */
  lemma {:induction false} StreamIsRead(x: Text, items: seq<Item>, said: bool)
    requires Sound(x) && forall i :: i in items ==> Wellformed(x, i)
    requires said || OpensWithHello(items)
    ensures ReadAll(x, State(WireAll(x, items), said)) == Heard(Reports(items), None)
  {
    if items == [] {
      NothingToRead(x, said);
    } else {
      var i, rest := items[0], WireAll(x, items[1..]);
      hide ReadAll, NextReport, Sound, Emit, ReportOf;
      assert Wellformed(x, i);
      match i
      case Says(m) =>
        EmittedIsRead(x, m, rest, said);
        StreamIsRead(x, items[1..], said || m.SayHello?);
        ReadOneReport(x, State(WireAll(x, items), said));
      case Other(body) =>
        ForeignIsSkipped(x, body, rest, said);
        StreamIsRead(x, items[1..], said);
        SameNextSameRest(x, State(WireAll(x, items), said), State(rest, said));
    }
  }

  lemma NothingToRead(x: Text, said: bool)
    ensures ReadAll(x, State([], said)) == Heard([], None)
  {
  }

  lemma ReadOneReport(x: Text, s: State)
    requires NextReport(x, s).result.Ok? && NextReport(x, s).result.value.Some?
    ensures var h := ReadAll(x, NextReport(x, s).state);
            ReadAll(x, s) == h.(reports := [NextReport(x, s).result.value.value] + h.reports)
  {
    hide NextReport;
  }

  lemma SameNextSameRest(x: Text, s: State, t: State)
    requires NextReport(x, s) == NextReport(x, t)
    ensures ReadAll(x, s) == ReadAll(x, t)
  {
    hide NextReport;
  }

  // ------------------------------------------------------ whatever is sent

  /** A report is refused before hello, and one accepted never says it has taken less than its position. */
  lemma {:induction false} NextIsInOrder(x: Text, s: State)
    ensures var n := NextReport(x, s);
            n.result.Ok? && n.result.value.Some? ==>
              var r := n.result.value.value;
              && (s.saidHello || r.Hello?) && n.state.saidHello
              && (r.Progress? && r.taken.Some? ==> r.offset <= r.taken.value)
    ensures s.saidHello ==> NextReport(x, s).state.saidHello
    decreases |s.input|
  {
    hide Split, FieldsIn, Get, ParseU64;
    var n := HeaderLen(s.input);
    if n > 0 {
      var header, rest := s.input[..n], s.input[n..];
      if !(n == MAX_RECORD_HEADER && Last(header) != NUL) && ParseHeader(x, header, s.saidHello).Skip? {
        NextIsInOrder(x, s.(input := rest));
      }
    }
  }

  /** Of any bytes at all: nothing is heard before a hello. */
  lemma {:induction false} NothingBeforeHello(x: Text, input: Bytes)
    ensures var h := ReadAll(x, State(input, false)); h.reports != [] ==> h.reports[0].Hello?
  {
    NextIsInOrder(x, State(input, false));
    hide NextReport;
  }

  lemma {:induction false} TakenIsNeverBehind(x: Text, s: State)
    ensures forall r :: r in ReadAll(x, s).reports && r.Progress? && r.taken.Some? ==> r.offset <= r.taken.value
    decreases |s.input|
  {
    var n := NextReport(x, s);
    NextIsInOrder(x, s);
    NextShrinks(x, s);
    hide NextReport;
    if n.result.Ok? && n.result.value.Some? {
      TakenIsNeverBehind(x, n.state);
    }
  }
}
