/** What the parser makes of the header lines a browser sends (section 4 of RFC 7578). */
module MultipartHeaders {
  import opened FormCodec
  import opened Multipart

  /** Lengths are C ints. */
  const INT_LIMIT := 0x8000_0000

  function Attr(key: string, v: string): string {
    key + "=\"" + v + "\""
  }

  function FormData(): string {
    "Content-Disposition: form-data; "
  }

  function ContentType(): string {
    "Content-Type: "
  }

  lemma FindFirst(s: string, c: char, i: nat)
    requires i < |s| && s[i] == c && forall k :: 0 <= k < i ==> s[k] != c
    ensures Find(s, c) == i
  {
    hide IndexOf;
    FoundAt(s, c, 0, |s|, i);
  }

  lemma FindNone(s: string, c: char)
    requires c !in s
    ensures Find(s, c) == NPOS
  {
    hide IndexOf;
    FoundAt(s, c, 0, |s|, |s|);
  }

  /** The attribute at the head of `t` is cut out whole. */
  lemma AttributeCut(key: string, v: string, rest: string)
    requires '=' !in key && |key| + |v| < INT_LIMIT
    ensures var t := Attr(key, v) + rest;
            && Find(t, '=') == |key| && Substr(t, 0, |key|) == key
            && Substr(t, SizeT(|key| + 2), SizeT(|v|)) == v
  {
    hide Find;
    var t := Attr(key, v) + rest;
    FindFirst(t, '=', |key|);
    assert t[..|key|] == key;
    assert t[|key| + 2..|key| + 2 + |v|] == v;
  }

  lemma OnlyName(h: Head, name: string)
    requires ';' !in name && |name| < INT_LIMIT / 2
    ensures Disposition(h, Attr("name", name)) == h.(name := name)
  {
    hide Find, Substr, SizeT;
    var t := Attr("name", name);
    AttributeCut("name", name, "");
    assert Attr("name", name) + "" == t;
    FindNone(t, ';');
  }

  lemma OnlyFilename(h: Head, filename: string)
    requires ';' !in filename && |filename| < INT_LIMIT / 2
    ensures Disposition(h, Attr("filename", filename)) == h.(filename := filename, isFile := true)
  {
    hide Find, Substr, SizeT;
    var t := Attr("filename", filename);
    AttributeCut("filename", filename, "");
    assert Attr("filename", filename) + "" == t;
    FindNone(t, ';');
  }

  lemma NameThenFilename(h: Head, name: string, filename: string)
    requires ';' !in name && ';' !in filename && |name| < INT_LIMIT / 2 && |filename| < INT_LIMIT / 2
    ensures Disposition(h, Attr("name", name) + ("; " + Attr("filename", filename)))
         == h.(name := name, filename := filename, isFile := true)
  {
    hide Find, Substr, SizeT;
    var a, b := Attr("name", name), Attr("filename", filename);
    var t := a + ("; " + b);
    AttributeCut("name", name, "; " + b);
    FindFirst(t, ';', |a|);
    AfterCut(a, b);
    OnlyFilename(h.(name := name), filename);
  }

  lemma AfterCut(a: string, b: string)
    ensures Substr(a + ("; " + b), |a| + 2, NPOS) == b
  {
  }

  /** A Content-Disposition line is handed on from its first attribute. */
  lemma {:induction false} DispositionLine(h: Head, t: string)
    ensures HeaderLine(h, FormData() + t) == Disposition(h, t)
  {
    hide Find, Substr, SizeT, Disposition;
    var line := FormData() + t;
    LineStarts(t);
    FindFirst(line, ';', 30);
    AfterCut(FormData()[..30], t);
    assert FormData()[..30] + ("; " + t) == line;
    SmallSize(32);
  }

  lemma SmallSize(n: nat)
    requires n < INT_LIMIT
    ensures SizeT(n) == n
  {
  }

  lemma LineStarts(t: string)
    ensures var line := FormData() + t;
            && |line| > 19 && !StartsNoCase(line, "Content-Type") && StartsNoCase(line, "Content-Disposition")
            && line[30] == ';' && forall i :: 0 <= i < 30 ==> line[i] != ';'
  {
    var line := FormData() + t;
    assert Lower(line[8]) != Lower("Content-Type"[8]);
  }

  lemma TypeLine(h: Head, contentType: string)
    ensures HeaderLine(h, ContentType() + contentType) == h.(contentType := contentType, isFile := true)
  {
    hide Find, SizeT, Disposition;
    var line := ContentType() + contentType;
    assert line[14..] == contentType;
    assert StartsNoCase(line, "Content-Type");
  }

  // ---------------------------------------------------------------------------
  //  Every header line
  // ---------------------------------------------------------------------------

  /** The same letter, in whatever case, or the same other character. */
  predicate SameLetter(a: char, b: char) {
    || a == b
    || ('A' <= a <= 'Z' && b as int == a as int + 32)
    || ('A' <= b <= 'Z' && a as int == b as int + 32)
  }

  ghost predicate BeginsWith(line: string, key: string) {
    |key| <= |line| && forall i :: 0 <= i < |key| ==> SameLetter(line[i], key[i])
  }

  lemma LowerSame(a: char, b: char)
    requires a as int < 128 || b as int < 128
    ensures Lower(a) == Lower(b) <==> SameLetter(a, b)
  {
  }

  /** Header names are recognised in any case. */
  lemma AnyCase(line: string, key: string)
    requires forall i :: 0 <= i < |key| ==> key[i] as int < 128
    ensures StartsNoCase(line, key) <==> BeginsWith(line, key)
  {
    hide Lower, SameLetter;
    if |key| <= |line| {
      forall i | 0 <= i < |key|
        ensures Lower(line[i]) == Lower(key[i]) <==> SameLetter(line[i], key[i])
      {
        LowerSame(line[i], key[i]);
      }
    }
  }

  /** A line is a type from the character after "Content-Type: " on, or a disposition from what
      follows its first ';', if anything does follow the name; any other line changes nothing. */
  lemma {:induction false} EveryLine(h: Head, line: string)
    requires |line| < INT_LIMIT
    ensures BeginsWith(line, "Content-Type") ==>
              HeaderLine(h, line)
              == if |line| == 12 then h
                 else h.(contentType := if |line| > 14 then line[14..] else "", isFile := true)
    ensures BeginsWith(line, "Content-Disposition") ==>
              HeaderLine(h, line)
              == if |line| == 19 then h
                 else if ';' in line then Disposition(h, AfterFirst(line, ';')) else Disposition(h, line[1..])
    ensures !BeginsWith(line, "Content-Type") && !BeginsWith(line, "Content-Disposition") ==> HeaderLine(h, line) == h
  {
    hide StartsNoCase, Disposition, BeginsWith, IndexOf;
    AnyCase(line, "Content-Type");
    AnyCase(line, "Content-Disposition");
    NotBoth(line);
    assert BeginsWith(line, "Content-Type") ==> |line| >= 12 by {
      BeginLength(line, "Content-Type");
    }
    assert BeginsWith(line, "Content-Disposition") ==> |line| >= 19 by {
      BeginLength(line, "Content-Disposition");
    }
    IndexFinds(line, ';', 0, |line|);
  }

  /** Two characters after the first `c` on. */
  function AfterFirst(line: string, c: char): string
    requires c in line
  {
    var i := IndexOf(line, c, 0, |line|);
    if i + 2 <= |line| then line[i + 2..] else ""
  }

  lemma BeginLength(line: string, key: string)
    ensures BeginsWith(line, key) ==> |line| >= |key|
  {
  }

  lemma NotBoth(line: string)
    ensures !(BeginsWith(line, "Content-Type") && BeginsWith(line, "Content-Disposition"))
  {
    if |line| > 8 {
      assert SameLetter(line[8], "Content-Type"[8]) ==> !SameLetter(line[8], "Content-Disposition"[8]);
    }
  }

  // ---------------------------------------------------------------------------
  //  Every disposition
  // ---------------------------------------------------------------------------

  /** A parameter of a disposition: with a quoted value, or without one. */
  datatype Parameter = Quoted(key: string, value: string) | Flag(word: string)

  /** No separators where they would cut; the bare words "name" and "filename" are read otherwise. */
  predicate Plausible(p: Parameter) {
    match p
    case Quoted(key, value) => ';' !in key && '=' !in key && ';' !in value
    case Flag(word) => word != "" && ';' !in word && '=' !in word && word != "name" && word != "filename"
  }

  function TextOf(p: Parameter): string {
    match p
    case Quoted(key, value) => Attr(key, value)
    case Flag(word) => word
  }

  function TextOfAll(ps: seq<Parameter>): string {
    if |ps| == 0 then "" else TextOf(ps[0]) + if |ps| == 1 then "" else "; " + TextOfAll(ps[1..])
  }

  /** What they say, one after the other. */
  function Read(h: Head, ps: seq<Parameter>): Head
    decreases |ps|
  {
    if |ps| == 0 then h
    else
      var n := match ps[0]
               case Quoted(key, value) =>
                 if key == "name" then h.(name := value)
                 else if key == "filename" then h.(filename := value, isFile := true) else h
               case Flag(_) => h;
      Read(n, ps[1..])
  }

  lemma QuotedRead(h: Head, p: Parameter, rest: string, end: nat)
    requires p.Quoted? && Plausible(p) && |TextOf(p)| < INT_LIMIT && end == |TextOf(p)|
    ensures var t := TextOf(p) + rest;
            Find(t, '=') == |p.key| && Attribute(h, t, |p.key|, end) == Read(h, [p])
  {
    hide Find;
    AttributeCut(p.key, p.value, rest);
    SmallSize(|p.value|);
    assert end - |p.key| - 3 == |p.value|;
  }

  /** A word without a value sets nothing, wherever the next '=' is. */
  lemma FlagRead(h: Head, p: Parameter, rest: string, end: nat)
    requires p.Flag? && Plausible(p) && (rest == "" || rest[0] == ';')
    requires |p.word + rest| < INT_LIMIT
    ensures var t := p.word + rest; Attribute(h, t, Find(t, '='), end) == h
  {
    hide IndexOf;
    var t := p.word + rest;
    var eq := Find(t, '=');
    IndexFinds(t, '=', 0, |t|);
    if rest == "" {
      assert t == p.word;
      FindNone(t, '=');
    } else {
      assert t[|p.word|] == ';';
      if eq != NPOS {
        assert t[eq] == '=';
      }
      assert ';' in Substr(t, 0, eq) by {
        assert Substr(t, 0, eq)[|p.word|] == ';';
      }
    }
  }

  lemma FirstCut(p: Parameter, rest: string)
    requires Plausible(p) && (rest == "" || rest[0] == ';')
    ensures var t := TextOf(p) + rest; Find(t, ';') == if rest == "" then NPOS else |TextOf(p)|
    ensures |TextOf(p)| > 0
  {
    hide IndexOf;
    var t := TextOf(p) + rest;
    if rest == "" {
      FindNone(t, ';');
    } else {
      FindFirst(t, ';', |TextOf(p)|);
    }
  }

  /** Any list of parameters is read one by one, in whatever order and however often: names and
      filenames are taken, anything else is passed over. */
  lemma {:induction false} EveryDisposition(h: Head, ps: seq<Parameter>)
    requires |ps| > 0 && forall i :: 0 <= i < |ps| ==> Plausible(ps[i])
    requires |TextOfAll(ps)| < INT_LIMIT
    ensures Disposition(h, TextOfAll(ps)) == Read(h, ps)
    decreases |ps|
  {
    hide Find, Substr, SizeT, Plausible, TextOf, Attribute;
    var rest := if |ps| == 1 then "" else "; " + TextOfAll(ps[1..]);
    var t, first := TextOfAll(ps), TextOf(ps[0]);
    assert t == first + rest;
    FirstCut(ps[0], rest);
    FirstRead(h, ps[0], rest);
    if |ps| > 1 {
      AfterCut(first, TextOfAll(ps[1..]));
      EveryDisposition(Read(h, [ps[0]]), ps[1..]);
    }
  }

  lemma FirstRead(h: Head, p: Parameter, rest: string)
    requires Plausible(p) && (rest == "" || rest[0] == ';') && |TextOf(p) + rest| < INT_LIMIT
    ensures var t := TextOf(p) + rest; Attribute(h, t, Find(t, '='), |TextOf(p)|) == Read(h, [p])
  {
    hide Find, Attribute;
    if p.Quoted? {
      QuotedRead(h, p, rest, |TextOf(p)|);
    } else {
      FlagRead(h, p, rest, |TextOf(p)|);
    }
  }

  /** A disposition ends at a ';' that nothing precedes: what follows it is not read. */
  lemma EmptyEnds(h: Head, t: string)
    ensures Disposition(h, ";" + t) == h
  {
    hide IndexOf, SizeT;
    var u := ";" + t;
    FindFirst(u, ';', 0);
    var eq := Find(u, '=');
    IndexFinds(u, '=', 0, |u|);
    assert u[0] == ';';
    assert eq > 0;
    assert Substr(u, 0, eq)[0] == ';';
  }
}
