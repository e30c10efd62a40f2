/** Feeding a serialised multipart/form-data body to the parser yields exactly its parts. */
module MultipartRoundTrip {
  import opened FormCodec
  import opened Multipart
  import opened MultipartFault
  import opened MultipartHeaders
  import opened MultipartScan

  // ---------------------------------------------------------------------------
  //  What the bytes of an item become
  // ---------------------------------------------------------------------------

  lemma Snoc<T>(s: seq<T>, b: nat, n: nat)
    requires b < n <= |s|
    ensures s[b..n] == s[b..n - 1] + [s[n - 1]]
  {
  }

  lemma {:induction false} TextStored(env: Env, k: Sink, s: string, b: nat, n: nat)
    requires b <= n <= |s| && !k.fault && !k.head.isFile
    ensures Stored(env, k, s, b, n) == k.(value := k.value + s[b..n], size := k.size + (n - b))
  {
    if n == b {
      assert k.value + s[b..n] == k.value;
    } else {
      TextStored(env, k, s, b, n - 1);
      Snoc(s, b, n);
      Assoc(k.value, s[b..n - 1], [s[n - 1]]);
    }
  }

  /** The first `q` chunks of the bytes that start at `b`. */
  function FullChunks(filename: string, s: string, b: nat, q: nat): seq<Upload>
    requires b + q * CHUNK <= |s|
  {
    if q == 0 then []
    else
      FullChunks(filename, s, b, q - 1)
      + [Upload(filename, (q - 1) * CHUNK, s[b + (q - 1) * CHUNK..b + q * CHUNK], false)]
  }

  /** A file item that holds the `m` bytes of `s` from `b` on, `q` full chunks of them handed over. */
  ghost predicate Chunked(env: Env, k: Sink, f: Sink, s: string, b: nat, m: nat, q: nat) {
    && q * CHUNK <= m < q * CHUNK + CHUNK && b + m <= |s|
    && f.size == m && f.chunk == s[b + q * CHUNK..b + m] && f.index == m - q * CHUNK
    && f == k.(size := f.size, chunk := f.chunk, index := f.index, uploads := f.uploads)
    && f.uploads == k.uploads + (if env.callback then FullChunks(CStr(k.head.filename), s, b, q) else [])
  }

  /** One more byte of a file: it joins the chunk, or completes and hands it over. */
  lemma FileByte(env: Env, k: Sink, f: Sink, s: string, b: nat, m: nat, q: nat) returns (r: nat)
    requires Chunked(env, k, f, s, b, m, q) && b + m < |s|
    ensures Chunked(env, k, StoreByte(env, f, s[b + m], false), s, b, m + 1, r)
  {
    hide CStr;
    Snoc(s, b + q * CHUNK, b + m + 1);
    if m + 1 < q * CHUNK + CHUNK {
      r := q;
    } else {
      r := q + 1;
      assert s[b + r * CHUNK..b + m + 1] == "";
      if env.callback {
        Assoc(k.uploads, FullChunks(CStr(k.head.filename), s, b, q),
              [Upload(CStr(k.head.filename), q * CHUNK, s[b + q * CHUNK..b + m + 1], false)]);
      }
    }
  }

  lemma {:induction false} FileStored(env: Env, k: Sink, s: string, b: nat, n: nat) returns (q: nat)
    requires b <= n <= |s| && !k.fault && k.head.isFile && k.hasBuffer
    requires k.size == 0 && k.chunk == "" && k.index == 0
    ensures Chunked(env, k, Stored(env, k, s, b, n), s, b, n - b, q)
    decreases n
  {
    hide CStr, StoreByte;
    if n == b {
      q := 0;
      assert k.uploads + [] == k.uploads;
    } else {
      q := FileStored(env, k, s, b, n - 1);
      q := FileByte(env, k, Stored(env, k, s, b, n - 1), s, b, n - 1 - b, q);
    }
  }

  // ---------------------------------------------------------------------------
  //  Header lines
  // ---------------------------------------------------------------------------

  ghost predicate OneLine(l: string) {
    '\r' !in l && '\n' !in l
  }

  /** The parser is at the start of a header line. */
  ghost predicate AtHeaders(p: Parser) {
    p.stage == ParseHeaders && p.temp == "" && !p.sink.fault && p.parsed > 0
  }

  lemma InHeaders(env: Env, p: Parser, c: char, last: bool)
    requires p.stage == ParseHeaders && !p.sink.fault && p.parsed > 0
    ensures var q := Header(env, p, c); Next(env, p, c, last) == q.(parsed := q.parsed + 1)
  {
    hide Header;
  }

  lemma {:induction false} LineRead(env: Env, p: Parser, s: string, b: nat, l: string, i: nat)
    requires i <= |l| && OneLine(l) && Stands(s, b, l) && AtHeaders(Run(env, p, s, b))
    ensures var was := Run(env, p, s, b); Run(env, p, s, b + i) == was.(temp := l[..i], parsed := was.parsed + i)
  {
    hide HeaderLine, StartItem, Step, Next;
    if i > 0 {
      LineRead(env, p, s, b, l, i - 1);
      InHeaders(env, Run(env, p, s, b + i - 1), s[b + i - 1], b + i == |s|);
      assert s[b + i - 1] == l[i - 1];
      Snoc(l, 0, i);
    }
  }

  const CRLF := "\r\n"

  /** A header line and its line end. */
  lemma LineDone(env: Env, p: Parser, s: string, b: nat, l: string)
    requires |l| > 0 && OneLine(l) && Stands(s, b, l + CRLF) && AtHeaders(Run(env, p, s, b))
    ensures var was, e := Run(env, p, s, b), b + |l| + 2;
            && Run(env, p, s, e) == was.(sink := was.sink.(head := HeaderLine(was.sink.head, l)),
                                         parsed := was.parsed + |l| + 2)
            && AtHeaders(Run(env, p, s, e))
  {
    hide HeaderLine, StartItem, Run, Next, OneLine;
    StandsBoth(s, b, l, CRLF);
    LineRead(env, p, s, b, l, |l|);
    assert l[..|l|] == l;
    var e := b + |l|;
    TwoMore(env, p, s, e);
    InHeaders(env, Run(env, p, s, e), '\r', false);
    InHeaders(env, Run(env, p, s, e + 1), '\n', e + 2 == |s|);
  }

  lemma TwoMore(env: Env, p: Parser, s: string, n: nat)
    requires Stands(s, n, CRLF)
    ensures s[n] == '\r' && s[n + 1] == '\n'
    ensures Run(env, p, s, n + 1) == Next(env, Run(env, p, s, n), '\r', false)
    ensures Run(env, p, s, n + 2) == Next(env, Run(env, p, s, n + 1), '\n', n + 2 == |s|)
  {
    hide Step;
    assert s[n + 0] == CRLF[0] && s[n + 1] == CRLF[1];
  }

  lemma StandsBoth(s: string, at: nat, a: string, b: string)
    requires Stands(s, at, a + b)
    ensures Stands(s, at, a) && Stands(s, at + |a|, b)
  {
    assert forall i :: 0 <= i < |a| ==> (a + b)[i] == a[i];
    assert forall i :: 0 <= i < |b| ==> (a + b)[|a| + i] == b[i];
  }

  /** The blank line: the item begins. */
  lemma BlankLine(env: Env, p: Parser, s: string, b: nat)
    requires Stands(s, b, CRLF) && AtHeaders(Run(env, p, s, b)) && env.denied == {}
    ensures var was, q := Run(env, p, s, b), Run(env, p, s, b + 2);
            && Holding(env, q, 0) && q == was.(stage := q.stage, sink := q.sink, parsed := was.parsed + 2)
            && var k := was.sink;
               q.sink == if k.head.isFile
                         then k.(size := 0, value := "", hasBuffer := true, chunk := "", index := 0)
                         else k.(size := 0, value := "")
  {
    hide HeaderLine;
    TwoMore(env, p, s, b);
  }

  // ---------------------------------------------------------------------------
  //  Parts
  // ---------------------------------------------------------------------------

  datatype Part =
    | Text(name: string, value: string)
    | File(name: string, filename: string, contentType: string, content: string)

  /** What a header line can carry: the parser does not unquote. */
  ghost predicate Plainly(s: string) {
    ';' !in s && OneLine(s)
  }

  ghost predicate GoodPart(part: Part) {
    && Plainly(part.name)
    && (part.File? ==> Plainly(part.filename) && OneLine(part.contentType))
  }

  function HeadLines(part: Part): string {
    if part.Text? then (FormData() + Attr("name", part.name)) + CRLF
    else
      ((FormData() + (Attr("name", part.name) + ("; " + Attr("filename", part.filename)))) + CRLF)
      + ((ContentType() + part.contentType) + CRLF)
  }

  function Content(part: Part): string {
    if part.Text? then part.value else part.content
  }

  function Headed(k: Sink, part: Part): Head {
    if part.Text? then k.head.(name := part.name)
    else Head(part.name, part.filename, part.contentType, true)
  }

  lemma OneLineSum(a: string, b: string)
    requires OneLine(a) && OneLine(b)
    ensures OneLine(a + b)
  {
  }

  lemma AttrLine(key: string, v: string)
    requires OneLine(key) && OneLine(v)
    ensures OneLine(Attr(key, v))
  {
  }

  lemma HeadLinesRead(env: Env, p: Parser, s: string, b: nat, part: Part)
    requires GoodPart(part) && |s| < INT_LIMIT / 2
    requires Stands(s, b, HeadLines(part)) && AtHeaders(Run(env, p, s, b))
    ensures var was, e := Run(env, p, s, b), b + |HeadLines(part)|;
            && Run(env, p, s, e) == was.(sink := was.sink.(head := Headed(was.sink, part)),
                                         parsed := was.parsed + |HeadLines(part)|)
            && AtHeaders(Run(env, p, s, e))
  {
    hide Run, Stands, Attr, Disposition, HeaderLine, FormData, ContentType, OneLine;
    if part.Text? {
      TextHeadRead(env, p, s, b, part.name);
    } else {
      FileHeadRead(env, p, s, b, part.name, part.filename, part.contentType);
    }
  }

  lemma TextHeadRead(env: Env, p: Parser, s: string, b: nat, name: string)
    requires Plainly(name) && |s| < INT_LIMIT / 2
    requires Stands(s, b, (FormData() + Attr("name", name)) + CRLF) && AtHeaders(Run(env, p, s, b))
    ensures var was, n := Run(env, p, s, b), |FormData() + Attr("name", name)| + 2;
            && Run(env, p, s, b + n) == was.(sink := was.sink.(head := was.sink.head.(name := name)),
                                             parsed := was.parsed + n)
            && AtHeaders(Run(env, p, s, b + n))
  {
    hide Run, Disposition, HeaderLine;
    AttrLine("name", name);
    OneLineSum(FormData(), Attr("name", name));
    LineDone(env, p, s, b, FormData() + Attr("name", name));
    DispositionLine(Run(env, p, s, b).sink.head, Attr("name", name));
    OnlyName(Run(env, p, s, b).sink.head, name);
  }

  lemma FileHeadRead(env: Env, p: Parser, s: string, b: nat, name: string, filename: string, contentType: string)
    requires Plainly(name) && Plainly(filename) && OneLine(contentType) && |s| < INT_LIMIT / 2
    requires Stands(s, b, HeadLines(File(name, filename, contentType, "")))
    requires AtHeaders(Run(env, p, s, b))
    ensures var was, n := Run(env, p, s, b), |HeadLines(File(name, filename, contentType, ""))|;
            && Run(env, p, s, b + n) == was.(sink := was.sink.(head := Head(name, filename, contentType, true)),
                                             parsed := was.parsed + n)
            && AtHeaders(Run(env, p, s, b + n))
  {
    hide Run, Disposition, HeaderLine, Stands;
    var t := Attr("name", name) + ("; " + Attr("filename", filename));
    var first, second := FormData() + t, ContentType() + contentType;
    assert Attr("name", name) != "";
    FileLines(name, filename, contentType);
    StandsBoth(s, b, first + CRLF, second + CRLF);
    LineDone(env, p, s, b, first);
    StandsFits(s, b, first + CRLF);
    var h := Run(env, p, s, b).sink.head;
    DispositionLine(h, t);
    NameThenFilename(h, name, filename);
    LineDone(env, p, s, b + |first| + 2, second);
    TypeLine(h.(name := name, filename := filename, isFile := true), contentType);
  }

  lemma StandsFits(s: string, b: nat, t: string)
    requires Stands(s, b, t)
    ensures |t| <= |s|
  {
  }

  lemma {:induction false} FileLines(name: string, filename: string, contentType: string)
    requires OneLine(name) && OneLine(filename) && OneLine(contentType)
    ensures OneLine(FormData() + (Attr("name", name) + ("; " + Attr("filename", filename))))
    ensures OneLine(ContentType() + contentType)
  {
    hide FormData, Attr;
    AttrLine("name", name);
    AttrLine("filename", filename);
    OneLineSum("; ", Attr("filename", filename));
    OneLineSum(Attr("name", name), "; " + Attr("filename", filename));
    FormDataLine();
    OneLineSum(FormData(), Attr("name", name) + ("; " + Attr("filename", filename)));
    OneLineSum(ContentType(), contentType);
  }

  lemma FormDataLine()
    ensures OneLine(FormData())
  {
  }

  /** What the server gets to see of a part: its parameter ... */
  function Received(part: Part): seq<Param> {
    if part.Text? then [Decoded(CStr(part.name), CStr(part.value), false)]
    else if part.content == "" then []
    else [Param(CStr(part.name), CStr(part.filename), true, true, |part.content|)]
  }

  /** ... and, for a file with content, its chunks. */
  function Uploads(env: Env, part: Part): seq<Upload> {
    if part.File? && part.content != "" && env.callback then Tiles(CStr(part.filename), part.content) else []
  }

  function Tiles(filename: string, content: string): seq<Upload> {
    var q := |content| / CHUNK;
    FullChunks(filename, content, 0, q) + [Upload(filename, q * CHUNK, content[q * CHUNK..], true)]
  }

  lemma {:induction false} ChunksMove(filename: string, s: string, b: nat, e: nat, q: nat)
    requires b + q * CHUNK <= e <= |s|
    ensures FullChunks(filename, s, b, q) == FullChunks(filename, s[b..e], 0, q)
  {
    if q > 0 {
      ChunksMove(filename, s, b, e, q - 1);
      SliceOfSlice(s, b, e, (q - 1) * CHUNK, q * CHUNK);
    }
  }

  lemma SliceOfSlice<T>(s: seq<T>, b: nat, e: nat, i: nat, j: nat)
    requires i <= j && b + j <= e <= |s|
    ensures s[b..e][i..j] == s[b + i..b + j]
  {
    var x, y := s[b..e][i..j], s[b + i..b + j];
    forall k | 0 <= k < j - i
      ensures x[k] == y[k]
    {
      assert x[k] == s[b..e][i + k] == s[b + i + k];
    }
    assert x == y;
  }

  lemma FileDelivered(env: Env, p: Parser, k: Sink, s: string, b: nat, e: nat, part: Part)
    requires part.File? && b <= e <= |s| && part.content == s[b..e]
    requires Takes(k) && k.head == Head(part.name, part.filename, part.contentType, true)
    requires k.size == 0 && k.chunk == "" && k.index == 0
    ensures var d := Deliver(env, p.(sink := Stored(env, k, s, b, e)));
            && d.params == p.params + Received(part) && d.sink.uploads == k.uploads + Uploads(env, part)
  {
    hide CStr, Write, Run;
    var q := FileStored(env, k, s, b, e);
    assert q == |part.content| / CHUNK;
    ChunksMove(CStr(part.filename), s, b, e, q);
    if part.content == "" {
      assert p.params + [] == p.params && k.uploads + [] == k.uploads;
    } else {
      assert s[b..e][q * CHUNK..] == s[b + q * CHUNK..e];
      Assoc(k.uploads, FullChunks(CStr(part.filename), s, b, q),
            [Upload(CStr(part.filename), q * CHUNK, s[b + q * CHUNK..e], true)]);
    }
  }

  lemma TextDelivered(env: Env, p: Parser, k: Sink, s: string, b: nat, e: nat, part: Part)
    requires part.Text? && b <= e <= |s| && part.value == s[b..e]
    requires Takes(k) && k.head.name == part.name && !k.head.isFile && k.value == "" && k.size == 0
    ensures var d := Deliver(env, p.(sink := Stored(env, k, s, b, e)));
            && d.params == p.params + Received(part) && d.sink.uploads == k.uploads + Uploads(env, part)
  {
    hide CStr, Write, Decoded, Run;
    TextStored(env, k, s, b, e);
    assert "" + s[b..e] == s[b..e];
  }

  // ---------------------------------------------------------------------------
  //  Bodies
  // ---------------------------------------------------------------------------

  function Delimiter(env: Env): string {
    "\r\n--" + env.boundary
  }

  function PartBytes(env: Env, part: Part): string {
    HeadLines(part) + (CRLF + (Content(part) + Delimiter(env)))
  }

  /** The parts, then `tail` after the last delimiter. */
  function PartsBytes(env: Env, parts: seq<Part>, tail: string): string
    requires |parts| > 0
  {
    PartBytes(env, parts[0]) + (if |parts| == 1 then tail else CRLF + PartsBytes(env, parts[1..], tail))
  }

  function BodyWith(env: Env, parts: seq<Part>, tail: string): string
    requires |parts| > 0
  {
    ("--" + env.boundary + CRLF) + PartsBytes(env, parts, tail)
  }

  const TAIL := "--\r\n"

  /** What a browser sends. */
  function Body(env: Env, parts: seq<Part>): string
    requires |parts| > 0
  {
    BodyWith(env, parts, TAIL)
  }

  ghost predicate FreeOf(env: Env, content: string) {
    forall j :: 0 <= j <= |content| ==> !EndsWith(env, content, 0, j, Len(env))
  }

  ghost predicate Sendable(env: Env, part: Part) {
    GoodPart(part) && FreeOf(env, Content(part))
  }

  lemma StandsSlice(s: string, b: nat, t: string)
    requires Stands(s, b, t)
    ensures s[b..b + |t|] == t
  {
  }

  lemma ContentDelimited(env: Env, s: string, b: nat, content: string)
    requires Stands(s, b, content) && Stands(s, b + |content|, Delimiter(env)) && FreeOf(env, content)
    ensures Delimits(env, s, b, b + |content|)
  {
    var e := b + |content|;
    forall i | 0 <= i < Len(env)
      ensures Mark(env)[i] == s[e + Len(env) - Len(env) + i]
    {
      assert s[e + i] == Delimiter(env)[i];
    }
    forall j | b <= j <= e
      ensures !EndsWith(env, s, b, j, Len(env))
    {
      if EndsWith(env, s, b, j, Len(env)) {
        OccursInside(env, s, b, content, j);
      }
    }
  }

  lemma OccursInside(env: Env, s: string, b: nat, content: string, j: nat)
    requires Stands(s, b, content) && b <= j <= b + |content| && EndsWith(env, s, b, j, Len(env))
    ensures EndsWith(env, content, 0, j - b, Len(env))
  {
    hide Mark;
    forall i | 0 <= i < Len(env)
      ensures Mark(env)[i] == content[j - b - Len(env) + i]
    {
      assert Mark(env)[i] == s[j - Len(env) + i];
      assert s[b + (j - b - Len(env) + i)] == content[j - b - Len(env) + i];
    }
  }

  ghost predicate Ready(p: Parser) {
    AtHeaders(p) && !p.sink.head.isFile
  }

  /** The blank line, the content and the delimiter: the item is delivered. */
  lemma ContentRead(env: Env, p: Parser, s: string, b: nat, part: Part, k: Sink)
    requires GoodBoundary(env) && FreeOf(env, Content(part)) && env.denied == {}
    requires Stands(s, b, CRLF + (Content(part) + Delimiter(env)))
    requires b + 2 + |Content(part)| + Len(env) < |s|
    requires AtHeaders(Run(env, p, s, b)) && Run(env, p, s, b).sink == k.(head := Headed(k, part)) && !k.head.isFile
    ensures var was, n := Run(env, p, s, b), 2 + |Content(part)| + Len(env);
            var q := Run(env, p, s, b + n);
            && q.stage == Dash3OrReturn2 && q.temp == "" && !q.sink.fault && q.parsed == was.parsed + n
            && q.sink.head.isFile == part.File?
            && q.params == was.params + Received(part) && q.sink.uploads == k.uploads + Uploads(env, part)
  {
    hide Write, Run, Stands, Received, Uploads, CStr, Delimits, FreeOf, EndsWith, Delimiter;
    var at, e := b + 2, b + 2 + |Content(part)|;
    StandsBoth(s, b, CRLF, Content(part) + Delimiter(env));
    StandsBoth(s, at, Content(part), Delimiter(env));
    BlankLine(env, p, s, b);
    ContentDelimited(env, s, at, Content(part));
    var was := Run(env, p, s, at);
    assert Takes(was.sink);
    ItemScanned(env, p, s, at, e);
    StandsSlice(s, at, Content(part));
    var q := Run(env, p, s, e + Len(env));
    if part.File? {
      FileDelivered(env, was.(bp := q.bp, parsed := q.parsed), was.sink, s, at, e, part);
    } else {
      TextDelivered(env, was.(bp := q.bp, parsed := q.parsed), was.sink, s, at, e, part);
    }
    StoredOpen(env, was.sink, s, at, e);
  }

  lemma OnePart(env: Env, p: Parser, s: string, b: nat, part: Part)
    requires GoodBoundary(env) && Sendable(env, part) && env.denied == {} && |s| < INT_LIMIT / 2
    requires Stands(s, b, PartBytes(env, part)) && b + |PartBytes(env, part)| < |s|
    requires Ready(Run(env, p, s, b))
    ensures var was, n := Run(env, p, s, b), |PartBytes(env, part)|;
            var q := Run(env, p, s, b + n);
            && q.stage == Dash3OrReturn2 && q.temp == "" && !q.sink.fault && q.parsed == was.parsed + n
            && q.sink.head.isFile == part.File?
            && q.params == was.params + Received(part)
            && q.sink.uploads == was.sink.uploads + Uploads(env, part)
  {
    hide Run, Stands, Received, Uploads, CStr, FreeOf, HeadLines, GoodPart, GoodBoundary, OneLine, Plainly;
    var head, more := HeadLines(part), CRLF + (Content(part) + Delimiter(env));
    StandsBoth(s, b, head, more);
    HeadLinesRead(env, p, s, b, part);
    ContentRead(env, p, s, b + |head|, part, Run(env, p, s, b).sink);
  }

  /** The delimiter goes on to the next part ... */
  lemma {:induction false} NextPart(env: Env, p: Parser, s: string, b: nat)
    requires Stands(s, b, CRLF) && Run(env, p, s, b).stage == Dash3OrReturn2
    requires Run(env, p, s, b).temp == "" && !Run(env, p, s, b).sink.fault && Run(env, p, s, b).parsed > 0
    ensures var was, q := Run(env, p, s, b), Run(env, p, s, b + 2);
            && Ready(q) && q.params == was.params && q.sink.uploads == was.sink.uploads && q.parsed == was.parsed + 2
  {
    hide Fallback, Run;
    TwoMore(env, p, s, b);
  }

  /** ... or its first dash ends the body, four bytes before the end that was announced, or fails. */
  lemma Close(env: Env, p: Parser, last: bool)
    requires p.stage == Dash3OrReturn2 && !p.sink.fault && p.parsed > 0
    ensures Next(env, p, '-', last)
         == p.(stage := if env.total == p.parsed + 4 then ParsingFinished else ParseError, parsed := p.parsed + 1)
  {
    hide Replay;
  }

  /** A state that hands out nothing more. */
  predicate Ended(p: Parser) {
    p.parsed > 0 && (p.stage == ParsingFinished || p.stage == ParseError)
  }

  lemma EndedByte(env: Env, p: Parser, c: char, last: bool)
    requires Ended(p)
    ensures var q := Next(env, p, c, last);
            && Ended(q) && q.stage == p.stage && q.params == p.params && q.sink.uploads == p.sink.uploads
            && q.sink.fault == p.sink.fault
  {
    hide Open, Header;
  }

  lemma {:induction false} StaysEnded(env: Env, p: Parser, s: string, n: nat, m: nat)
    requires n <= m <= |s| && Ended(Run(env, p, s, n))
    ensures var was, q := Run(env, p, s, n), Run(env, p, s, m);
            && Ended(q) && q.stage == was.stage && q.params == was.params && q.sink.uploads == was.sink.uploads
            && q.sink.fault == was.sink.fault
    decreases m
  {
    hide Next, Ended;
    if n < m {
      StaysEnded(env, p, s, n, m - 1);
      EndedByte(env, Run(env, p, s, m - 1), s[m - 1], m == |s|);
    }
  }

  function AllReceived(parts: seq<Part>): seq<Param> {
    if |parts| == 0 then [] else Received(parts[0]) + AllReceived(parts[1..])
  }

  function AllUploads(env: Env, parts: seq<Part>): seq<Upload> {
    if |parts| == 0 then [] else Uploads(env, parts[0]) + AllUploads(env, parts[1..])
  }

  ghost predicate AllSendable(env: Env, parts: seq<Part>) {
    |parts| > 0 ==> Sendable(env, parts[0]) && AllSendable(env, parts[1..])
  }

  lemma {:induction false} PartsRead(env: Env, p: Parser, s: string, b: nat, parts: seq<Part>, tail: string)
    requires |parts| > 0 && AllSendable(env, parts) && tail != ""
    requires GoodBoundary(env) && env.denied == {} && |s| < INT_LIMIT / 2
    requires Stands(s, b, PartsBytes(env, parts, tail)) && b + |PartsBytes(env, parts, tail)| == |s|
    requires Ready(Run(env, p, s, b)) && Run(env, p, s, b).parsed == b
    ensures |tail| < |s| && Stands(s, |s| - |tail|, tail)
    ensures var was, e := Run(env, p, s, b), |s| - |tail|;
            var q := Run(env, p, s, e);
            && q.stage == Dash3OrReturn2 && !q.sink.fault && q.parsed == e > 0
            && q.sink.head.isFile == parts[|parts| - 1].File?
            && q.params == was.params + AllReceived(parts)
            && q.sink.uploads == was.sink.uploads + AllUploads(env, parts)
    decreases |parts|
  {
    hide Run, Stands, Received, Uploads, CStr, Sendable, PartBytes, GoodBoundary, OneLine;
    var was, part := Run(env, p, s, b), parts[0];
    var e := b + |PartBytes(env, part)|;
    var rest := if |parts| == 1 then tail else CRLF + PartsBytes(env, parts[1..], tail);
    StandsBoth(s, b, PartBytes(env, part), rest);
    OnePart(env, p, s, b, part);
    if |parts| == 1 {
      assert Received(part) + [] == Received(part) && Uploads(env, part) + [] == Uploads(env, part);
    } else {
      StandsBoth(s, e, CRLF, PartsBytes(env, parts[1..], tail));
      NextPart(env, p, s, e);
      PartsRead(env, p, s, e + 2, parts[1..], tail);
      Assoc(was.params, Received(part), AllReceived(parts[1..]));
      Assoc(was.sink.uploads, Uploads(env, part), AllUploads(env, parts[1..]));
    }
  }

  /** The opening boundary line, up to its `n`th character. */
  ghost predicate Opened(env: Env, ps: seq<Param>, n: nat, q: Parser) {
    && q == START.(params := ps, parsed := n, stage := q.stage)
    && q.stage == if n < |env.boundary| + 4 then ExpectBoundary else ParseHeaders
  }

  lemma OpeningByte(env: Env, ps: seq<Param>, q: Parser, n: nat, last: bool)
    requires n < |env.boundary| + 4 && Opened(env, ps, n, q)
    ensures Opened(env, ps, n + 1, Next(env, q, ("--" + env.boundary + CRLF)[n], last))
  {
    hide Header, Data;
  }

  lemma {:induction false} Opening(env: Env, ps: seq<Param>, s: string, n: nat)
    requires GoodBoundary(env) && Stands(s, 0, "--" + env.boundary + CRLF) && n == |env.boundary| + 4
    ensures Opened(env, ps, n, Run(env, START.(params := ps), s, n))
  {
    hide Next, GoodBoundary;
    var open := "--" + env.boundary + CRLF;
    forall k | 0 <= k < |open|
      ensures s[k] == open[k]
    {
      assert s[0 + k] == open[k];
    }
    OpeningTo(env, ps, s, n - 1);
    OpeningByte(env, ps, Run(env, START.(params := ps), s, n - 1), n - 1, n == |s|);
  }

  /** The parts of a body are delivered, in order, by the time its tail begins. */
  lemma BodyRead(env: Env, ps: seq<Param>, parts: seq<Part>, tail: string)
    requires |parts| > 0 && GoodBoundary(env) && AllSendable(env, parts) && env.denied == {} && tail != ""
    requires |BodyWith(env, parts, tail)| < INT_LIMIT / 2
    ensures var s := BodyWith(env, parts, tail);
            && |tail| < |s| && Stands(s, |s| - |tail|, tail)
            && var q := Run(env, START.(params := ps), s, |s| - |tail|);
               && q.stage == Dash3OrReturn2 && !q.sink.fault && q.parsed == |s| - |tail|
               && q.sink.head.isFile == parts[|parts| - 1].File?
               && q.params == ps + AllReceived(parts) && q.sink.uploads == AllUploads(env, parts)
  {
    hide Run, Stands, PartsBytes, GoodBoundary, AllReceived, AllUploads, AllSendable;
    var s, p := BodyWith(env, parts, tail), START.(params := ps);
    var open := "--" + env.boundary + CRLF;
    StandsWhole(s);
    StandsBoth(s, 0, open, PartsBytes(env, parts, tail));
    Opening(env, ps, s, |open|);
    PartsRead(env, p, s, |open|, parts, tail);
    assert [] + AllUploads(env, parts) == AllUploads(env, parts);
  }

  /** How a body closes, exactly: whatever follows the first dash after the last delimiter, the
      same parts have been delivered, and the parser finishes if and only if that dash is four
      bytes before the end that was announced; otherwise it ends in its error state. */
  lemma {:induction false} ClosingExact(env: Env, ps: seq<Param>, parts: seq<Part>, tail: string)
    requires |parts| > 0 && GoodBoundary(env) && AllSendable(env, parts) && env.denied == {}
    requires tail != "" && tail[0] == '-' && |BodyWith(env, parts, tail)| < INT_LIMIT / 2
    ensures var s := BodyWith(env, parts, tail);
            var q := Run(env, START.(params := ps), s, |s|);
            && q.params == ps + AllReceived(parts) && q.sink.uploads == AllUploads(env, parts) && !q.sink.fault
            && q.stage == if env.total == |s| - |tail| + 4 then ParsingFinished else ParseError
  {
    hide Run, Next, BodyWith, GoodBoundary, AllReceived, AllUploads, AllSendable;
    BodyRead(env, ps, parts, tail);
    var s, p := BodyWith(env, parts, tail), START.(params := ps);
    var n := |s| - |tail|;
    assert s[n + 0] == tail[0];
    Close(env, Run(env, p, s, n), n + 1 == |s|);
    RunNext(env, p, s, n);
    StaysEnded(env, p, s, n + 1, |s|);
  }

  /** Round trip: for every boundary and every non-empty list of parts whose contents are free
      of the delimiter, the parser finishes on the body a browser sends and has delivered
      what it receives of those parts, in order: a parameter for each text, its name and value
      decoded, and for each file that is not empty a parameter and its chunks. */
  lemma {:induction false} RoundTrip(env: Env, ps: seq<Param>, parts: seq<Part>)
    requires |parts| > 0 && GoodBoundary(env) && AllSendable(env, parts) && env.denied == {}
    requires env.total == |Body(env, parts)| < INT_LIMIT / 2
    ensures var s := Body(env, parts);
            var q := Run(env, START.(params := ps), s, |s|);
            && q.stage == ParsingFinished && !q.sink.fault
            && q.params == ps + AllReceived(parts) && q.sink.uploads == AllUploads(env, parts)
  {
    hide Run, BodyWith, GoodBoundary, AllReceived, AllUploads, AllSendable;
    ClosingExact(env, ps, parts, TAIL);
  }

  /** A body that ends without the line end after its last two dashes, as RFC 2046 allows,
      delivers the same parts, but the parser ends in its error state. */
  lemma UnendedBody(env: Env, ps: seq<Param>, parts: seq<Part>)
    requires |parts| > 0 && GoodBoundary(env) && AllSendable(env, parts) && env.denied == {}
    requires env.total == |BodyWith(env, parts, "--")| < INT_LIMIT / 2
    ensures var s := BodyWith(env, parts, "--");
            var q := Run(env, START.(params := ps), s, |s|);
            && q.stage == ParseError && !q.sink.fault
            && q.params == ps + AllReceived(parts) && q.sink.uploads == AllUploads(env, parts)
  {
    hide Run, BodyWith, GoodBoundary, AllReceived, AllUploads, AllSendable;
    ClosingExact(env, ps, parts, "--");
  }

  /** A tail that neither closes the body nor goes on, nor may still do so, to a line end: it
      shows in its first byte, or after a return in its second. */
  predicate Broken(tail: string) {
    tail != "" && tail[0] != '-' && (tail[0] == '\r' ==> |tail| > 1 && tail[1] != '\n')
  }

  function Showing(tail: string): nat
    requires tail != ""
  {
    if tail[0] == '\r' then 2 else 1
  }

  lemma ReturnByte(env: Env, p: Parser, last: bool)
    requires p.stage == Dash3OrReturn2 && !p.sink.fault && p.parsed > 0
    ensures Next(env, p, '\r', last) == p.(stage := ExpectFeed2, parsed := p.parsed + 1)
  {
  }

  /** A last delimiter followed by neither a dash nor a line end ends the program if and only if
      the part before it was a file. */
  lemma {:induction false} BrokenTail(env: Env, ps: seq<Param>, parts: seq<Part>, tail: string)
    requires |parts| > 0 && GoodBoundary(env) && AllSendable(env, parts) && env.denied == {}
    requires Broken(tail) && |BodyWith(env, parts, tail)| < INT_LIMIT / 2
    ensures var s := BodyWith(env, parts, tail);
            |tail| < |s|
            && (Run(env, START.(params := ps), s, |s| - |tail| + Showing(tail)).sink.fault
                <==> parts[|parts| - 1].File?)
  {
    hide Run, Next, BodyWith, AllReceived, AllUploads, AllSendable;
    BodyRead(env, ps, parts, tail);
    var s, p := BodyWith(env, parts, tail), START.(params := ps);
    var n := |s| - |tail|;
    assert s[n + 0] == tail[0];
    RunNext(env, p, s, n);
    if tail[0] == '\r' {
      ReturnByte(env, Run(env, p, s, n), n + 1 == |s|);
      assert s[n + 1] == tail[1];
      RunNext(env, p, s, n + 1);
    }
    var m := n + Showing(tail) - 1;
    FaultsExactly(env, p, s, m);
    ByteFaults(env, Run(env, p, s, m), s[m], m + 1 == |s|);
  }

  lemma WrongOpeningByte(env: Env, ps: seq<Param>, q: Parser, n: nat, c: char, last: bool)
    requires n < |env.boundary| + 4 && Opened(env, ps, n, q) && c != ("--" + env.boundary + CRLF)[n]
    ensures var r := Next(env, q, c, last);
            r.stage == ParseError && r.parsed > 0 && r.params == ps && r.sink.uploads == []
  {
    hide Header, Data;
  }

  /** A body is read past its first line exactly if that line is the boundary's; otherwise
      nothing in it is ever delivered. */
  lemma OpeningExact(env: Env, ps: seq<Param>, s: string)
    requires GoodBoundary(env) && |s| >= |env.boundary| + 4
    ensures var p, n := START.(params := ps), |env.boundary| + 4;
            if Stands(s, 0, "--" + env.boundary + CRLF) then Run(env, p, s, n).stage == ParseHeaders
            else Run(env, p, s, |s|).stage == ParseError && Run(env, p, s, |s|).params == ps
                 && Run(env, p, s, |s|).sink.uploads == []
  {
    hide Run, Next, GoodBoundary;
    var open := "--" + env.boundary + CRLF;
    if Stands(s, 0, open) {
      Opening(env, ps, s, |open|);
    } else {
      var i := FirstDifference(s, open);
      OpeningTo(env, ps, s, i);
      RunNext(env, START.(params := ps), s, i);
      WrongOpeningByte(env, ps, Run(env, START.(params := ps), s, i), i, s[i], i + 1 == |s|);
      StaysEnded(env, START.(params := ps), s, i + 1, |s|);
    }
  }

  lemma RunNext(env: Env, p: Parser, s: string, n: nat)
    requires n < |s|
    ensures Run(env, p, s, n + 1) == Next(env, Run(env, p, s, n), s[n], n + 1 == |s|)
  {
    hide Next;
  }

  lemma FirstDifference(s: string, t: string) returns (i: nat)
    requires |t| <= |s| && !Stands(s, 0, t)
    ensures i < |t| && s[i] != t[i] && forall k :: 0 <= k < i ==> s[k] == t[k]
  {
    i := 0;
    assert exists k :: 0 <= k < |t| && s[0 + k] != t[k];
    while s[i] == t[i]
      invariant i < |t| && forall k :: 0 <= k < i ==> s[k] == t[k]
      decreases |t| - i
    {
      assert exists k :: i < k < |t| && s[0 + k] != t[k];
      i := i + 1;
    }
  }

  lemma {:induction false} OpeningTo(env: Env, ps: seq<Param>, s: string, n: nat)
    requires n < |env.boundary| + 4 <= |s| && forall k :: 0 <= k < n ==> s[k] == ("--" + env.boundary + CRLF)[k]
    ensures Opened(env, ps, n, Run(env, START.(params := ps), s, n))
  {
    hide Next;
    if n == 0 {
      assert |env.boundary| + 4 > 0;
    } else {
      OpeningTo(env, ps, s, n - 1);
      assert s[n - 1] == ("--" + env.boundary + CRLF)[n - 1];
      OpeningByte(env, ps, Run(env, START.(params := ps), s, n - 1), n - 1, n == |s|);
    }
  }

  lemma StandsWhole(s: string)
    ensures Stands(s, 0, s)
  {
  }

  // ---------------------------------------------------------------------------
  //  Uploads
  // ---------------------------------------------------------------------------

  function Joined(us: seq<Upload>): string {
    if |us| == 0 then "" else Joined(us[..|us| - 1]) + us[|us| - 1].data
  }

  lemma {:induction false} ChunksJoined(filename: string, s: string, q: nat)
    requires q * CHUNK <= |s|
    ensures |FullChunks(filename, s, 0, q)| == q && Joined(FullChunks(filename, s, 0, q)) == s[..q * CHUNK]
  {
    if q > 0 {
      ChunksJoined(filename, s, q - 1);
      var us := FullChunks(filename, s, 0, q - 1);
      var u := Upload(filename, (q - 1) * CHUNK, s[(q - 1) * CHUNK..q * CHUNK], false);
      assert (us + [u])[..|us|] == us;
      assert s[..(q - 1) * CHUNK] + u.data == s[..q * CHUNK];
    }
  }

  lemma {:induction false} ChunkAt(filename: string, s: string, q: nat, i: nat)
    requires q * CHUNK <= |s| && i < q
    ensures |FullChunks(filename, s, 0, q)| == q
    ensures FullChunks(filename, s, 0, q)[i]
         == Upload(filename, i * CHUNK, s[i * CHUNK..i * CHUNK + CHUNK], false)
  {
    if i < q - 1 {
      ChunkAt(filename, s, q - 1, i);
    } else if q > 1 {
      ChunkAt(filename, s, q - 1, 0);
    }
  }

  /** The calls for one file tile it: joined they are its content, each starts where the last
      one ended, all but the last are full, and exactly the last is final. */
  lemma TilesCover(filename: string, content: string)
    ensures var us := Tiles(filename, content);
            && Joined(us) == content && |us| == |content| / CHUNK + 1
            && forall i :: 0 <= i < |us| ==>
                 && us[i].filename == filename && us[i].index == i * CHUNK
                 && us[i].final == (i == |us| - 1)
                 && if us[i].final then |us[i].data| < CHUNK else |us[i].data| == CHUNK
  {
    hide FullChunks;
    var q := |content| / CHUNK;
    ChunksJoined(filename, content, q);
    var us, u := FullChunks(filename, content, 0, q), Upload(filename, q * CHUNK, content[q * CHUNK..], true);
    assert (us + [u])[..|us|] == us;
    assert content[..q * CHUNK] + u.data == content;
    forall i | 0 <= i < q
      ensures us[i] == Upload(filename, i * CHUNK, content[i * CHUNK..i * CHUNK + CHUNK], false)
    {
      ChunkAt(filename, content, q, i);
    }
  }

  // ---------------------------------------------------------------------------
  //  Which fields arrive as they were sent
  // ---------------------------------------------------------------------------

  lemma NoNul(s: string)
    ensures '\0' !in CStr(s) && |CStr(s)| <= |s|
    ensures CStr(s) == s <==> '\0' !in s
    ensures |CStr(s)| == |s| ==> CStr(s) == s
  {
    hide Decode;
    if '\0' !in s {
      CStrWhole(s);
    }
    NulCut(s, 0, |s|);
  }

  lemma {:induction false} NulCut(s: string, from: nat, limit: nat)
    requires from <= limit <= |s|
    ensures forall i :: from <= i < IndexOf(s, '\0', from, limit) ==> s[i] != '\0'
    decreases limit - from
  {
    if from < limit && s[from] != '\0' {
      NulCut(s, from + 1, limit);
    }
  }

  /** A field arrives unchanged if and only if it holds no NUL, no '+' and no percent escape:
      `addParam` decodes what a multipart body does not encode. */
  lemma FieldUnchanged(s: string)
    ensures CStr(Decode(CStr(s))) == s <==> '\0' !in s && Plain(s)
  {
    hide CStr, Decode, Plain;
    NoNul(s);
    NoNul(Decode(CStr(s)));
    DecodeShorter(CStr(s));
    if '\0' !in s {
      DecodeFixesPlain(s);
      NoNul(Decode(s));
    }
  }

  /** The parameter a sender means by a part. */
  function Meant(part: Part): Param {
    if part.Text? then Param(part.name, part.value, false, false, 0)
    else Param(part.name, part.filename, true, true, |part.content|)
  }

  function AllMeant(parts: seq<Part>): seq<Param> {
    if |parts| == 0 then [] else [Meant(parts[0])] + AllMeant(parts[1..])
  }

  /** What a multipart field can carry as it is. */
  ghost predicate Verbatim(s: string) {
    '\0' !in s && Plain(s)
  }

  ghost predicate ArrivesAsMeant(part: Part) {
    if part.Text? then Verbatim(part.name) && Verbatim(part.value)
    else part.content != "" && '\0' !in part.name && '\0' !in part.filename
  }

  lemma PartUnchanged(part: Part)
    ensures Received(part) == [Meant(part)] <==> ArrivesAsMeant(part)
    ensures |Received(part)| <= 1
  {
    hide CStr, Decode, Plain;
    if part.Text? {
      FieldUnchanged(part.name);
      FieldUnchanged(part.value);
    } else {
      NoNul(part.name);
      NoNul(part.filename);
    }
  }

  lemma {:induction false} NoneAdded(parts: seq<Part>)
    ensures |AllReceived(parts)| <= |parts| == |AllMeant(parts)|
  {
    hide Received;
    if |parts| > 0 {
      NoneAdded(parts[1..]);
      PartUnchanged(parts[0]);
    }
  }

  /** The parameters of a body are exactly those its sender meant if and only if every name and
      value is free of NULs, '+' and percent escapes and no file is empty (the names of a file
      need only be free of NULs). */
  lemma {:induction false} PartsUnchanged(parts: seq<Part>)
    ensures AllReceived(parts) == AllMeant(parts) <==> forall i :: 0 <= i < |parts| ==> ArrivesAsMeant(parts[i])
  {
    hide Received, ArrivesAsMeant;
    if |parts| > 0 {
      var r, rest := Received(parts[0]), parts[1..];
      PartsUnchanged(rest);
      PartUnchanged(parts[0]);
      NoneAdded(rest);
      assert forall i :: 0 <= i < |rest| ==> rest[i] == parts[i + 1];
      if |r| == 1 {
        assert (r + AllReceived(rest))[1..] == AllReceived(rest) && (r + AllReceived(rest))[0] == r[0];
        assert ([Meant(parts[0])] + AllMeant(rest))[1..] == AllMeant(rest);
        AllOf(parts);
      } else {
        assert r == [];
        assert |r + AllReceived(rest)| < |[Meant(parts[0])] + AllMeant(rest)|;
        assert !ArrivesAsMeant(parts[0]);
      }
    }
  }

  lemma AllOf(parts: seq<Part>)
    requires |parts| > 0
    ensures (forall i :: 0 <= i < |parts| ==> ArrivesAsMeant(parts[i]))
            <==> ArrivesAsMeant(parts[0]) && forall i :: 0 <= i < |parts[1..]| ==> ArrivesAsMeant(parts[1..][i])
  {
    hide ArrivesAsMeant;
    if ArrivesAsMeant(parts[0]) && forall i :: 0 <= i < |parts[1..]| ==> ArrivesAsMeant(parts[1..][i]) {
      forall i | 0 <= i < |parts|
        ensures ArrivesAsMeant(parts[i])
      {
        if i > 0 {
          assert parts[i] == parts[1..][i - 1];
        }
      }
    }
  }

  lemma DecodeShorter(s: string)
    ensures |Decode(s)| <= |s|
  {
    DecodeShrinks(s, 0);
  }
}
