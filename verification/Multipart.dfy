/** The byte-at-a-time multipart/form-data parser
    (lib/psychic_http/src/MultipartProcessor.cpp), section 5.1.1 of RFC 2046. */
module Multipart {
  import opened FormCodec

  const CHUNK := 8192
  const SIZE_T := 0x1_0000_0000
  const NPOS := 0xFFFF_FFFF

  datatype Stage =
    | ExpectBoundary | ParseHeaders | WaitForReturn1 | ExpectFeed1 | ExpectDash1 | ExpectDash2
    | BoundaryOrData | Dash3OrReturn2 | ExpectFeed2 | ParsingFinished | ParseError

  /** One call of the upload callback. */
  datatype Upload = Upload(filename: string, index: int, data: string, final: bool)

  datatype Head = Head(name: string, filename: string, contentType: string, isFile: bool)

  /** The current item and what has been handed out of it. `fault`: the original program has
      ended, over a byte stored through the freed item buffer or a replay that never ends. */
  datatype Sink = Sink(
    head: Head, value: string, size: nat,
    hasBuffer: bool, chunk: string, index: nat,
    uploads: seq<Upload>, fault: bool)

  datatype Parser = Parser(stage: Stage, bp: nat, temp: string, parsed: nat, sink: Sink, params: seq<Param>)

  /** `total`: the request's content length; `denied`: the positions at which an allocation fails. */
  datatype Env = Env(boundary: string, total: nat, callback: bool, denied: set<nat>)

  // ---------------------------------------------------------------------------
  //  Header lines
  // ---------------------------------------------------------------------------

  function SizeT(x: int): (r: nat)
    ensures r < SIZE_T && (0 <= x < SIZE_T ==> r == x)
  {
    x % SIZE_T
  }

  function Find(s: string, c: char): nat {
    var i := IndexOf(s, c, 0, |s|);
    if i == |s| then NPOS else i
  }

  /** psychicSubstr; a length of NPOS is no limit. */
  function Substr(s: string, pos: nat, len: nat): string {
    if pos > |s| then "" else if len == NPOS || pos + len > |s| then s[pos..] else s[pos..pos + len]
  }

  function Lower(c: char): char {
    if 'A' <= c <= 'Z' then (c as int + 32) as char else c
  }

  /** strncasecmp(s, pat, |pat|) == 0. */
  predicate StartsNoCase(s: string, pat: string) {
    |pat| <= |s| && forall i :: 0 <= i < |pat| ==> Lower(s[i]) == Lower(pat[i])
  }

  /** One `key="value"` of a Content-Disposition, the key ending at `eq`, the parameter at `end`. */
  function Attribute(h: Head, t: string, eq: nat, end: nat): Head {
    var key, v := Substr(t, 0, eq), Substr(t, SizeT(eq + 2), SizeT(end - eq - 3));
    if key == "name" then h.(name := v)
    else if key == "filename" then h.(filename := v, isFile := true)
    else h
  }

  function Disposition(h: Head, t: string): Head
    decreases |t|
  {
    var eq, sc := Find(t, '='), Find(t, ';');
    if sc != NPOS && sc > 0 then Disposition(Attribute(h, t, eq, sc), Substr(t, sc + 2, NPOS))
    else Attribute(h, t, eq, |t|)
  }

  function HeaderLine(h: Head, line: string): Head {
    if |line| > 12 && StartsNoCase(line, "Content-Type") then
      h.(contentType := Substr(line, 14, NPOS), isFile := true)
    else if |line| > 19 && StartsNoCase(line, "Content-Disposition") then
      Disposition(h, Substr(line, SizeT(Find(line, ';') + 2), NPOS))
    else h
  }

  // ---------------------------------------------------------------------------
  //  Item bytes
  // ---------------------------------------------------------------------------

  function Calls(env: Env, u: Upload): seq<Upload> {
    if env.callback then [u] else []
  }

  function StoreByte(env: Env, k: Sink, c: char, last: bool): Sink {
    var chunk := k.chunk + [c];
    if last || |chunk| == CHUNK then
      k.(size := k.size + 1, chunk := "", index := 0,
         uploads := k.uploads + Calls(env, Upload(CStr(k.head.filename), k.size + 1 - |chunk|, chunk, last)))
    else
      k.(size := k.size + 1, chunk := chunk, index := |chunk|)
  }

  function Write(env: Env, k: Sink, c: char, last: bool): Sink {
    if k.fault then k
    else if !k.head.isFile then k.(value := k.value + [c], size := k.size + 1)
    else if k.hasBuffer then StoreByte(env, k, c, last)
    else k.(fault := true)
  }

  /** The delimiter that ends an item, and the line end that may follow it. */
  function Mark(env: Env): (m: string)
    ensures |m| == |env.boundary| + 6
  {
    "\r\n--" + env.boundary + "\r\n"
  }

  /** The first `n` characters of `text` are written. */
  function Pour(env: Env, k: Sink, text: string, n: nat, last: bool): Sink
    requires n <= |text|
  {
    if n == 0 then k else Write(env, Pour(env, k, text, n - 1, last), text[n - 1], last)
  }

  // ---------------------------------------------------------------------------
  //  One byte
  // ---------------------------------------------------------------------------

  function Open(env: Env, p: Parser, c: char): Parser {
    var n, b := p.parsed, env.boundary;
    if n < 2 && c != '-' then p.(stage := ParseError)
    else if 2 <= n < |b| + 2 && b[n - 2] != c then p.(stage := ParseError)
    else if n == |b| + 2 && c != '\r' then p.(stage := ParseError)
    else if n == |b| + 3 then
      if c != '\n' then p.(stage := ParseError) else p.(stage := ParseHeaders, sink := NotAFile(p.sink))
    else p
  }

  function NotAFile(k: Sink): Sink {
    k.(head := k.head.(isFile := false))
  }

  /** The value starts after the blank line. */
  function StartItem(env: Env, p: Parser): Parser {
    var k := p.sink.(size := 0, value := "");
    if !k.head.isFile then p.(stage := WaitForReturn1, sink := k)
    else if p.parsed in env.denied then p.(stage := ParseError, sink := k.(hasBuffer := false, chunk := ""))
    else p.(stage := WaitForReturn1, sink := k.(hasBuffer := true, chunk := "", index := 0))
  }

  function Header(env: Env, p: Parser, c: char): Parser {
    if c == '\r' then p
    else if c != '\n' then p.(temp := p.temp + [c])
    else if |p.temp| > 0 then p.(temp := "", sink := p.sink.(head := HeaderLine(p.sink.head, p.temp)))
    else StartItem(env, p)
  }

  function Wait(env: Env, p: Parser, c: char, last: bool): Parser {
    if p.sink.fault then p
    else if c != '\r' then p.(sink := Write(env, p.sink, c, last))
    else p.(stage := ExpectFeed1)
  }

  /** The delimiter broke off after `n` characters: they were data, and so may `c` be. */
  function Fallback(env: Env, p: Parser, n: nat, c: char, last: bool): Parser
    requires n <= |env.boundary| + 6
  {
    Wait(env, p.(stage := WaitForReturn1, sink := Pour(env, p.sink, Mark(env), n, last)), c, last)
  }

  /** The same for a whole delimiter, whose boundary is replayed by an 8-bit index. */
  function Replay(env: Env, p: Parser, n: nat, c: char, last: bool): Parser
    requires n <= |env.boundary| + 6
  {
    if |env.boundary| >= 256 then p.(stage := WaitForReturn1, sink := p.sink.(fault := true))
    else Fallback(env, p, n, c, last)
  }

  /** The item is complete. */
  function Deliver(env: Env, p: Parser): Parser {
    var q, k := p.(stage := Dash3OrReturn2), p.sink;
    if !k.head.isFile then
      q.(params := p.params + [Decoded(CStr(k.head.name), CStr(k.value), false)])
    else if k.size == 0 then
      q.(sink := k.(hasBuffer := false, chunk := ""))
    else
      q.(sink := k.(hasBuffer := false, chunk := "", index := 0,
                    uploads := k.uploads
                      + Calls(env, Upload(CStr(k.head.filename), k.size - k.index, k.chunk, true))),
         params := p.params + [Param(CStr(k.head.name), CStr(k.head.filename), true, true, k.size)])
  }

  function Boundary(env: Env, p: Parser, c: char, last: bool): Parser {
    var b := env.boundary;
    if p.bp < |b| && b[p.bp] != c then Fallback(env, p, 4 + p.bp, c, last)
    else if p.bp == |b| - 1 then Deliver(env, p)
    else p.(bp := (p.bp + 1) % 256)
  }

  function Closing(env: Env, p: Parser, c: char, last: bool): Parser {
    if c == '-' then
      if env.total == p.parsed + 4 then p.(stage := ParsingFinished) else p.(stage := ParseError)
    else if c == '\r' then p.(stage := ExpectFeed2)
    else Replay(env, p, |env.boundary| + 4, c, last)
  }

  /** The stages that look for the delimiter. */
  function Data(env: Env, p: Parser, c: char, last: bool): Parser {
    match p.stage
    case WaitForReturn1 => Wait(env, p, c, last)
    case ExpectFeed1 => if c == '\n' then p.(stage := ExpectDash1) else Fallback(env, p, 1, c, last)
    case ExpectDash1 => if c == '-' then p.(stage := ExpectDash2) else Fallback(env, p, 2, c, last)
    case ExpectDash2 =>
      if c == '-' then p.(stage := BoundaryOrData, bp := 0) else Fallback(env, p, 3, c, last)
    case BoundaryOrData => Boundary(env, p, c, last)
    case Dash3OrReturn2 => Closing(env, p, c, last)
    case ExpectFeed2 =>
      if c == '\n' then p.(stage := ParseHeaders, sink := NotAFile(p.sink))
      else Replay(env, p, |env.boundary| + 5, c, last)
    case _ => p
  }

  /** At the first byte the parser starts over. */
  function Restart(p: Parser): Parser {
    if p.parsed > 0 then p
    else p.(stage := ExpectBoundary, temp := "",
            sink := p.sink.(head := Head("", "", "", p.sink.head.isFile)))
  }

  function Step(env: Env, p: Parser, c: char, last: bool): Parser {
    if p.sink.fault then p
    else if p.stage == ParseError then p.(sink := p.sink.(hasBuffer := false, chunk := ""))
    else
      var q := Restart(p);
      match q.stage
      case ExpectBoundary => Open(env, q, c)
      case ParseHeaders => Header(env, q, c)
      case _ => Data(env, q, c, last)
  }

  const START := Parser(ExpectBoundary, 0, "", 0, Sink(Head("", "", "", false), "", 0, false, "", 0, [], false), [])

  function Next(env: Env, p: Parser, c: char, last: bool): Parser {
    var q := Step(env, p, c, last);
    q.(parsed := q.parsed + 1)
  }

  /** The parser after the first `n` bytes of `body`. */
  function Run(env: Env, p: Parser, body: string, n: nat): Parser
    requires n <= |body|
  {
    if n == 0 then p else Next(env, Run(env, p, body, n - 1), body[n - 1], n == |body|)
  }

  lemma PourStart(env: Env, k: Sink, last: bool)
    ensures var a := Write(env, k, '\r', last);
            var b := Write(env, a, '\n', last);
            && a == Pour(env, k, Mark(env), 1, last)
            && b == Pour(env, k, Mark(env), 2, last)
            && Write(env, b, '-', last) == Pour(env, k, Mark(env), 3, last)
  {
    hide Write;
    assert Pour(env, k, Mark(env), 2, last) == Write(env, Pour(env, k, Mark(env), 1, last), '\n', last);
  }

  lemma PourEnd(env: Env, k: Sink, last: bool)
    ensures var n := |env.boundary| + 4;
            Write(env, Pour(env, k, Mark(env), n, last), '\r', last) == Pour(env, k, Mark(env), n + 1, last)
  {
    hide Write;
  }

  lemma RestartKeeps(p: Parser)
    ensures Restart(p).parsed == p.parsed && Restart(p).sink.fault == p.sink.fault
    ensures Restart(p) == p || Restart(p).stage == ExpectBoundary
  {
  }

  // ---------------------------------------------------------------------------
  //  The processor
  // ---------------------------------------------------------------------------

  class Processor {
    const env: Env
    const request: Params
    var stage: Stage
    var temp: string
    var parsedLength: nat
    var boundaryPosition: nat
    var itemSize: nat
    var itemName: string
    var itemFilename: string
    var itemType: string
    var itemValue: string
    var itemBuffer: array?<char>
    var itemBufferIndex: nat
    var itemIsFile: bool
    var uploads: seq<Upload>
    var faulted: bool

    ghost predicate Valid()
      reads `itemBuffer, `itemBufferIndex
    {
      itemBuffer != null ==> itemBuffer.Length == CHUNK && itemBufferIndex < CHUNK
    }

    ghost function Item(): (k: Sink)
      requires Valid()
      reads `itemName, `itemFilename, `itemType, `itemIsFile, `itemValue, `itemSize, `itemBuffer, `itemBufferIndex
      reads `uploads, `faulted, itemBuffer
      ensures k.fault == faulted
    {
      Sink(Head(itemName, itemFilename, itemType, itemIsFile), itemValue, itemSize,
           itemBuffer != null, if itemBuffer == null then "" else itemBuffer[..itemBufferIndex], itemBufferIndex,
           uploads, faulted)
    }

    ghost function View(): Parser
      requires Valid()
      reads this, itemBuffer, request
    {
      Parser(stage, boundaryPosition, temp, parsedLength, Item(), request.list)
    }

    constructor (env: Env, request: Params)
      ensures Valid() && this.env == env && this.request == request
      ensures View() == START.(params := request.list)
    {
      this.env, this.request := env, request;
      stage, temp, parsedLength, boundaryPosition := ExpectBoundary, "", 0, 0;
      itemSize, itemName, itemFilename, itemType, itemValue := 0, "", "", "", "";
      itemBuffer, itemBufferIndex, itemIsFile := null, 0, false;
      uploads, faulted := [], false;
    }

    method HandleUploadByte(data: char, last: bool)
      requires Valid() && itemBuffer != null && itemSize > 0
      modifies `itemBufferIndex, `uploads, itemBuffer
      ensures Valid()
      ensures Item() == StoreByte(env, old(Item()).(size := itemSize - 1), data, last)
    {
      ghost var chunk := itemBuffer[..itemBufferIndex] + [data];
      itemBuffer[itemBufferIndex] := data;
      itemBufferIndex := itemBufferIndex + 1;
      assert itemBuffer[..itemBufferIndex] == chunk;
      if last || itemBufferIndex == CHUNK {
        if env.callback {
          uploads := uploads +
            [Upload(CStr(itemFilename), itemSize - itemBufferIndex, itemBuffer[..itemBufferIndex], last)];
        }
        itemBufferIndex := 0;
      }
    }

    method ItemWriteByte(b: char, last: bool)
      requires Valid()
      modifies `itemSize, `itemValue, `itemBufferIndex, `uploads, `faulted, itemBuffer
      ensures Valid() && Item() == Write(env, old(Item()), b, last)
    {
      if faulted {
        return;
      }
      if itemIsFile && itemBuffer == null {
        faulted := true;
        return;
      }
      itemSize := itemSize + 1;
      if itemIsFile {
        HandleUploadByte(b, last);
      } else {
        itemValue := itemValue + [b];
      }
    }

    /** `HandleUploadByte` or append: the delimiter's first four characters. */
    method WriteDelimiter(last: bool)
      requires Valid()
      modifies `itemSize, `itemValue, `itemBufferIndex, `uploads, `faulted, itemBuffer
      ensures Valid() && Item() == Pour(env, old(Item()), Mark(env), 4, last)
    {
      hide Write;
      ghost var was, mark := Item(), Mark(env);
      ItemWriteByte('\r', last);
      assert Item() == Pour(env, was, mark, 1, last);
      ItemWriteByte('\n', last);
      assert Item() == Pour(env, was, mark, 2, last);
      ItemWriteByte('-', last);
      assert Item() == Pour(env, was, mark, 3, last);
      ItemWriteByte('-', last);
    }

    /** ... and then `n` characters of the boundary. */
    method WriteBoundary(n: nat, last: bool)
      requires Valid() && n <= |env.boundary|
      modifies `itemSize, `itemValue, `itemBufferIndex, `uploads, `faulted, itemBuffer
      ensures Valid() && Item() == Pour(env, old(Item()), Mark(env), 4 + n, last)
    {
      hide Write;
      WriteDelimiter(last);
      var i := 0;
      while i < n
        invariant Valid() && i <= n
        invariant Item() == Pour(env, old(Item()), Mark(env), 4 + i, last)
      {
        ItemWriteByte(env.boundary[i], last);
        assert Mark(env)[4 + i] == env.boundary[i];
        i := i + 1;
      }
    }

    method Attributes()
      modifies `temp, `itemName, `itemFilename, `itemIsFile
      ensures Head(itemName, itemFilename, itemType, itemIsFile)
           == Disposition(old(Head(itemName, itemFilename, itemType, itemIsFile)), old(temp))
    {
      hide IndexOf, SizeT;
      ghost var h := Head(itemName, itemFilename, itemType, itemIsFile);
      while Find(temp, ';') != NPOS && Find(temp, ';') > 0
        invariant Disposition(Head(itemName, itemFilename, itemType, itemIsFile), temp) == Disposition(h, old(temp))
        decreases |temp|
      {
        var eq, sc := Find(temp, '='), Find(temp, ';');
        SetAttribute(eq, sc);
        temp := Substr(temp, sc + 2, NPOS);
      }
      SetAttribute(Find(temp, '='), |temp|);
    }

    method SetAttribute(eq: nat, end: nat)
      modifies `itemName, `itemFilename, `itemIsFile
      ensures Head(itemName, itemFilename, itemType, itemIsFile)
           == Attribute(old(Head(itemName, itemFilename, itemType, itemIsFile)), temp, eq, end)
    {
      hide IndexOf, SizeT;
      if Substr(temp, 0, eq) == "name" {
        itemName := Substr(temp, SizeT(eq + 2), SizeT(end - eq - 3));
      } else if Substr(temp, 0, eq) == "filename" {
        itemFilename := Substr(temp, SizeT(eq + 2), SizeT(end - eq - 3));
        itemIsFile := true;
      }
    }

    method HeaderByte(data: char)
      requires Valid() && stage == ParseHeaders
      modifies this
      ensures itemBuffer == old(itemBuffer) || itemBuffer == null || fresh(itemBuffer)
      ensures Valid() && View() == Header(env, old(View()), data)
    {
      hide IndexOf, SizeT, Disposition, StartsNoCase, Substr, Find;
      if data != '\r' && data != '\n' {
        temp := temp + [data];
      }
      if data == '\n' {
        if |temp| > 0 {
          if |temp| > 12 && StartsNoCase(temp, "Content-Type") {
            itemType := Substr(temp, 14, NPOS);
            itemIsFile := true;
          } else if |temp| > 19 && StartsNoCase(temp, "Content-Disposition") {
            temp := Substr(temp, SizeT(Find(temp, ';') + 2), NPOS);
            Attributes();
          }
          temp := "";
        } else {
          BeginItem();
        }
      }
    }

    method BeginItem()
      requires Valid()
      modifies `stage, `itemSize, `itemValue, `itemBuffer, `itemBufferIndex
      ensures itemBuffer == old(itemBuffer) || itemBuffer == null || fresh(itemBuffer)
      ensures Valid() && View() == StartItem(env, old(View()))
    {
      stage := WaitForReturn1;
      itemSize := 0;
      itemValue := "";
      if itemIsFile {
        if parsedLength in env.denied {
          itemBuffer := null;
          stage := ParseError;
          return;
        }
        itemBuffer := new char[CHUNK];
        itemBufferIndex := 0;
        assert itemBuffer[..0] == "";
      }
    }

    method OpenByte(data: char)
      requires Valid() && stage == ExpectBoundary
      modifies `stage, `itemIsFile
      ensures Valid() && View() == Open(env, old(View()), data)
    {
      hide NotAFile, Item;
      var b := env.boundary;
      if parsedLength < 2 && data != '-' {
        stage := ParseError;
      } else if 2 <= parsedLength && parsedLength - 2 < |b| && b[parsedLength - 2] != data {
        stage := ParseError;
      } else if parsedLength == |b| + 2 && data != '\r' {
        stage := ParseError;
      } else if parsedLength == |b| + 3 {
        if data != '\n' {
          stage := ParseError;
          return;
        }
        NextItem();
      }
    }

    method NextItem()
      requires Valid()
      modifies `stage, `itemIsFile
      ensures View() == old(View()).(stage := ParseHeaders, sink := NotAFile(old(Item())))
    {
      stage := ParseHeaders;
      itemIsFile := false;
    }

    method FinishItem()
      requires Valid()
      modifies `stage, `itemBuffer, `itemBufferIndex, `uploads, request
      ensures itemBuffer == old(itemBuffer) || itemBuffer == null
      ensures Valid() && View() == Deliver(env, old(View()))
    {
      hide Decoded, CStr;
      stage := Dash3OrReturn2;
      if !itemIsFile {
        request.AddParam(CStr(itemName), CStr(itemValue), true, false);
      } else {
        if itemSize > 0 {
          if env.callback {
            var data := if itemBuffer == null then "" else itemBuffer[..itemBufferIndex];
            uploads := uploads + [Upload(CStr(itemFilename), itemSize - itemBufferIndex, data, true)];
          }
          itemBufferIndex := 0;
          request.Add(Param(CStr(itemName), CStr(itemFilename), true, true, itemSize));
        }
        itemBuffer := null;
      }
    }

    method FeedOrDashByte(data: char, last: bool)
      requires Valid() && parsedLength > 0 && !faulted
      requires stage == ExpectFeed1 || stage == ExpectDash1 || stage == ExpectDash2
      modifies this, itemBuffer, request
      ensures itemBuffer == old(itemBuffer) || itemBuffer == null || fresh(itemBuffer)
      ensures Valid() && View() == Data(env, old(View()), data, last)
      decreases 2
    {
      hide Pour, Write, Mark, Item, Fallback;
      ghost var was := View();
      PourStart(env, was.sink, last);
      if stage == ExpectFeed1 {
        if data != '\n' {
          stage := WaitForReturn1;
          ItemWriteByte('\r', last);
          Reparse(was, 1, data, last);
        } else {
          stage := ExpectDash1;
        }
      } else if stage == ExpectDash1 {
        if data != '-' {
          stage := WaitForReturn1;
          ItemWriteByte('\r', last);
          ItemWriteByte('\n', last);
          Reparse(was, 2, data, last);
        } else {
          stage := ExpectDash2;
        }
      } else {
        if data != '-' {
          stage := WaitForReturn1;
          ItemWriteByte('\r', last);
          ItemWriteByte('\n', last);
          ItemWriteByte('-', last);
          Reparse(was, 3, data, last);
        } else {
          stage := BoundaryOrData;
          boundaryPosition := 0;
        }
      }
    }

    method BoundaryByte(data: char, last: bool)
      requires Valid() && parsedLength > 0 && !faulted
      requires stage == BoundaryOrData
      modifies this, itemBuffer, request
      ensures itemBuffer == old(itemBuffer) || itemBuffer == null || fresh(itemBuffer)
      ensures Valid() && View() == Boundary(env, old(View()), data, last)
      decreases 2
    {
      hide Deliver, Pour, Write, Mark, Item, Fallback;
      ghost var was := View();
      if boundaryPosition < |env.boundary| && env.boundary[boundaryPosition] != data {
        stage := WaitForReturn1;
        WriteBoundary(boundaryPosition, last);
        Reparse(was, 4 + boundaryPosition, data, last);
      } else if boundaryPosition == |env.boundary| - 1 {
        FinishItem();
      } else {
        boundaryPosition := (boundaryPosition + 1) % 256;
      }
    }

    /** The replay goes round for ever. */
    method NeverReturn()
      requires Valid()
      modifies `faulted
      ensures Valid() && View() == old(View()).(sink := old(Item()).(fault := true))
    {
      faulted := true;
    }

    method ClosingByte(data: char, last: bool)
      requires Valid() && parsedLength > 0 && !faulted
      requires stage == Dash3OrReturn2
      modifies this, itemBuffer, request
      ensures itemBuffer == old(itemBuffer) || itemBuffer == null || fresh(itemBuffer)
      ensures Valid() && View() == Closing(env, old(View()), data, last)
      decreases 2
    {
      hide Pour, Write, Mark, Item, Fallback;
      ghost var was := View();
      if data == '-' && env.total != parsedLength + 4 {
        stage := ParseError;
        return;
      }
      if data == '\r' {
        stage := ExpectFeed2;
      } else if data == '-' && env.total == parsedLength + 4 {
        stage := ParsingFinished;
      } else {
        stage := WaitForReturn1;
        if |env.boundary| >= 256 {
          NeverReturn();
          return;
        }
        WriteBoundary(|env.boundary|, last);
        Reparse(was, |env.boundary| + 4, data, last);
      }
    }

    method Feed2Byte(data: char, last: bool)
      requires Valid() && parsedLength > 0 && !faulted
      requires stage == ExpectFeed2
      modifies this, itemBuffer, request
      ensures itemBuffer == old(itemBuffer) || itemBuffer == null || fresh(itemBuffer)
      ensures Valid() && View() == Data(env, old(View()), data, last)
      decreases 2
    {
      hide Pour, Write, Mark, Fallback, Item;
      ghost var was := View();
      if data == '\n' {
        NextItem();
      } else {
        stage := WaitForReturn1;
        if |env.boundary| >= 256 {
          NeverReturn();
          return;
        }
        WriteBoundary(|env.boundary|, last);
        ItemWriteByte('\r', last);
        PourEnd(env, was.sink, last);
        Reparse(was, |env.boundary| + 5, data, last);
      }
    }

    /** The parser calls itself once the held-back characters are written. */
    method Reparse(ghost was: Parser, ghost n: nat, data: char, last: bool)
      requires Valid() && parsedLength > 0 && stage == WaitForReturn1
      requires n <= |env.boundary| + 6
      requires View() == was.(stage := WaitForReturn1, sink := Pour(env, was.sink, Mark(env), n, last))
      modifies this, itemBuffer, request
      ensures itemBuffer == old(itemBuffer) || itemBuffer == null || fresh(itemBuffer)
      ensures Valid() && View() == Fallback(env, was, n, data, last)
      decreases 1
    {
      hide Pour, Write, Mark, Item;
      ParseByte(data, last);
    }

    method FreeBuffer()
      requires Valid()
      modifies `itemBuffer
      ensures itemBuffer == null && Item() == old(Item()).(hasBuffer := false, chunk := "")
    {
      itemBuffer := null;
    }

    method StartOver()
      requires Valid()
      modifies `stage, `temp, `itemName, `itemFilename, `itemType
      ensures Valid() && View() == Restart(old(View()))
      ensures parsedLength == 0 ==> stage == ExpectBoundary
    {
      if parsedLength == 0 {
        stage := ExpectBoundary;
        temp, itemName, itemFilename, itemType := "", "", "", "";
      }
    }

    method ParseByte(data: char, last: bool)
      requires Valid()
      modifies this, itemBuffer, request
      ensures itemBuffer == old(itemBuffer) || itemBuffer == null || fresh(itemBuffer)
      ensures Valid() && View() == Step(env, old(View()), data, last)
      decreases if stage == WaitForReturn1 then 0 else 3
    {
      hide Write, Open, Header, Fallback, Boundary, Closing, Restart;
      if faulted {
        return;
      }
      if stage == ParseError {
        FreeBuffer();
        return;
      }
      ghost var was := View();
      RestartKeeps(was);
      StartOver();
      if stage == WaitForReturn1 {
        WaitByte(data, last);
      } else if stage == ExpectBoundary {
        OpenByte(data);
      } else if stage == ParseHeaders {
        HeaderByte(data);
      } else if stage == BoundaryOrData {
        BoundaryByte(data, last);
      } else if stage == Dash3OrReturn2 {
        ClosingByte(data, last);
      } else if stage == ExpectFeed2 {
        Feed2Byte(data, last);
      } else if stage != ParsingFinished {
        FeedOrDashByte(data, last);
      }
    }

    method WaitByte(data: char, last: bool)
      requires Valid() && !faulted && stage == WaitForReturn1
      modifies this, itemBuffer
      ensures itemBuffer == old(itemBuffer)
      ensures Valid() && View() == Wait(env, old(View()), data, last)
    {
      hide Write, Item;
      if data != '\r' {
        ItemWriteByte(data, last);
      } else {
        stage := ExpectFeed1;
      }
    }

    /** The body is handed over as a C string. */
    method Process(body: string)
      requires Valid()
      modifies this, itemBuffer, request
      ensures Valid() && View() == Run(env, old(View()).(parsed := 0), CStr(body), |CStr(body)|)
    {
      hide Step, CStr;
      ghost var start := View().(parsed := 0);
      parsedLength := 0;
      var text := CStr(body);
      var i := 0;
      while i < |text|
        invariant Valid() && i <= |text|
        invariant View() == Run(env, start, text, i)
        invariant itemBuffer == old(itemBuffer) || itemBuffer == null || fresh(itemBuffer)
      {
        ParseByte(text[i], i + 1 == |text|);
        parsedLength := parsedLength + 1;
        i := i + 1;
      }
    }
  }
}
