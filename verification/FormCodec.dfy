/** Percent-encoding (lib/psychic_http/src/PsychicHttpServer.cpp) and form decoding
    (lib/psychic_http/src/PsychicRequest.cpp). Strings are C strings: a character is one
    byte, and a string handed over as `const char *` ends at its first NUL. */
module FormCodec {

  const HEX := "0123456789ABCDEF"

  predicate IsOctet(c: char) {
    c as int < 256
  }

  ghost predicate Octets(s: string) {
    forall i :: 0 <= i < |s| ==> IsOctet(s[i])
  }

  /** First position of `c` in `s` at or after `from`, or `limit`. */
  function IndexOf(s: string, c: char, from: nat, limit: nat): (i: nat)
    requires from <= limit <= |s|
    ensures from <= i <= limit
    decreases limit - from
  {
    if from == limit || s[from] == c then from else IndexOf(s, c, from + 1, limit)
  }

  lemma {:induction false} FoundAt(s: string, c: char, from: nat, limit: nat, i: nat)
    requires from <= i <= limit <= |s|
    requires i < limit ==> s[i] == c
    requires forall k :: from <= k < i ==> s[k] != c
    ensures IndexOf(s, c, from, limit) == i
    decreases i - from
  {
    if from < i {
      FoundAt(s, c, from + 1, limit, i);
    }
  }

  /** The part of `s` that survives being passed as a C string. */
  function CStr(s: string): string {
    s[..IndexOf(s, '\0', 0, |s|)]
  }

  lemma CStrWhole(s: string)
    requires '\0' !in s
    ensures CStr(s) == s
  {
    FoundAt(s, '\0', 0, |s|, |s|);
  }

  predicate IsAlnum(c: char) {
    '0' <= c <= '9' || 'a' <= c <= 'z' || 'A' <= c <= 'Z'
  }

  /** The unreserved characters of section 2.3 of RFC 3986. */
  predicate IsUnreserved(c: char) {
    IsAlnum(c) || c == '-' || c == '_' || c == '.' || c == '~'
  }

  predicate IsXDigit(c: char) {
    '0' <= c <= '9' || 'a' <= c <= 'f' || 'A' <= c <= 'F'
  }

  function HexVal(c: char): (v: nat)
    requires IsXDigit(c)
    ensures v < 16
  {
    if '0' <= c <= '9' then c as int - '0' as int
    else if 'a' <= c <= 'f' then c as int - 'a' as int + 10
    else c as int - 'A' as int + 10
  }

  function EncodeByte(c: char): string
    requires IsOctet(c)
  {
    if IsUnreserved(c) then [c] else ['%', HEX[c as int / 16], HEX[c as int % 16]]
  }

  function Encode(s: string): string
    requires Octets(s)
  {
    if |s| == 0 then "" else EncodeByte(s[0]) + Encode(s[1..])
  }

  /** A percent escape starts at position `i`. */
  predicate EscapeAt(s: string, i: nat) {
    i + 2 < |s| && s[i] == '%' && IsXDigit(s[i + 1]) && IsXDigit(s[i + 2])
  }

  /** The character decoded at position `i`. */
  function CharAt(s: string, i: nat): char
    requires i < |s|
  {
    if EscapeAt(s, i) then (HexVal(s[i + 1]) * 16 + HexVal(s[i + 2])) as char
    else if s[i] == '+' then ' '
    else s[i]
  }

  function DecodeFrom(s: string, i: nat): string
    decreases |s| - i
  {
    if i >= |s| then "" else [CharAt(s, i)] + DecodeFrom(s, if EscapeAt(s, i) then i + 3 else i + 1)
  }

  function Decode(s: string): string {
    DecodeFrom(s, 0)
  }

  lemma Assoc<T>(a: seq<T>, b: seq<T>, c: seq<T>)
    ensures (a + b) + c == a + (b + c)
  {
  }

  method UrlEncode(str: string) returns (output: string)
    requires Octets(str)
    ensures output == Encode(str)
  {
    output := "";
    var i := 0;
    while i < |str|
      invariant 0 <= i <= |str|
      invariant output + Encode(str[i..]) == Encode(str)
    {
      var c := str[i];
      ghost var before := output;
      assert str[i..][1..] == str[i + 1..];
      if IsAlnum(c) || c == '-' || c == '_' || c == '.' || c == '~' {
        output := output + [c];
      } else {
        output := output + ['%'];
        output := output + [HEX[c as int / 16]];
        output := output + [HEX[c as int % 16]];
      }
      assert output == before + EncodeByte(c);
      Assoc(before, EncodeByte(c), Encode(str[i + 1..]));
      i := i + 1;
    }
  }

  method UrlDecode(encoded: string) returns (output: string)
    ensures output == Decode(encoded)
  {
    var length := |encoded|;
    output := "";
    var i := 0;
    while i < length
      invariant 0 <= i <= length
      invariant output + DecodeFrom(encoded, i) == Decode(encoded)
    {
      ghost var before, at := output, i;
      if encoded[i] == '%' && i + 2 < length && IsXDigit(encoded[i + 1]) && IsXDigit(encoded[i + 2]) {
        output := output + [(HexVal(encoded[i + 1]) * 16 + HexVal(encoded[i + 2])) as char];
        i := i + 2;
      } else if encoded[i] == '+' {
        output := output + [' '];
      } else {
        output := output + [encoded[i]];
      }
      i := i + 1;
      assert output == before + [CharAt(encoded, at)];
      Assoc(before, [CharAt(encoded, at)], DecodeFrom(encoded, i));
    }
  }

  // ---------------------------------------------------------------------------
  //  Form parameters
  // ---------------------------------------------------------------------------

  datatype Param = Param(name: string, value: string, post: bool, file: bool, size: nat)

  /** A decoded parameter is handed on as C strings. */
  function Decoded(name: string, value: string, post: bool): Param {
    Param(CStr(Decode(name)), CStr(Decode(value)), post, false, 0)
  }

  /** Where one `name=value` lies in the form: the name ends at `eq`, the value at `end`;
      without an '=' both ends coincide. */
  datatype Field = Field(start: nat, eq: nat, end: nat)

  predicate Within(f: Field, s: string) {
    f.start <= f.eq <= f.end <= |s|
  }

  function FieldAt(s: string, p: nat): (f: Field)
    requires p < |s|
    ensures Within(f, s)
  {
    var amp := IndexOf(s, '&', p, |s|);
    Field(p, IndexOf(s, '=', p, amp), amp)
  }

  /** The fields of `s` from position `p` on. */
  function FieldsFrom(s: string, p: nat): (fs: seq<Field>)
    ensures forall i :: 0 <= i < |fs| ==> Within(fs[i], s)
    decreases |s| - p
  {
    if p >= |s| then [] else [FieldAt(s, p)] + FieldsFrom(s, FieldAt(s, p).end + 1)
  }

  function ParamOf(s: string, f: Field, post: bool): Param
    requires Within(f, s)
  {
    Decoded(s[f.start..f.eq], if f.eq < f.end then s[f.eq + 1..f.end] else "", post)
  }

  function ParamsOf(s: string, fs: seq<Field>, post: bool): seq<Param>
    requires forall i :: 0 <= i < |fs| ==> Within(fs[i], s)
  {
    if |fs| == 0 then [] else [ParamOf(s, fs[0], post)] + ParamsOf(s, fs[1..], post)
  }

  lemma Shift<T>(done: seq<T>, more: seq<T>, rest: seq<T>, togo: seq<T>, whole: seq<T>)
    requires |more| == |done| + 1 && more[..|done|] == done
    requires togo == [more[|done|]] + rest && done + togo == whole
    ensures more + rest == whole
  {
  }

  /** One turn of the parse. */
  lemma ParamsStep(s: string, p: nat, post: bool)
    requires p < |s|
    ensures ParamsOf(s, FieldsFrom(s, p), post)
         == [ParamOf(s, FieldAt(s, p), post)] + ParamsOf(s, FieldsFrom(s, FieldAt(s, p).end + 1), post)
  {
    assert FieldsFrom(s, p)[1..] == FieldsFrom(s, FieldAt(s, p).end + 1);
  }

  function ParseForm(s: string, post: bool): seq<Param> {
    ParamsOf(s, FieldsFrom(s, 0), post)
  }

  /** The request's parameter list. */
  class Params {
    var list: seq<Param>

    constructor ()
      ensures list == []
    {
      list := [];
    }

    method Add(param: Param)
      modifies this
      ensures list == old(list) + [param]
    {
      list := list + [param];
    }

    method AddParam(name: string, value: string, decode: bool, post: bool)
      modifies this
      ensures list == old(list) + [if decode then Decoded(name, value, post) else Param(name, value, post, false, 0)]
    {
      if decode {
        var dn := UrlDecode(name);
        var dv := UrlDecode(value);
        Add(Param(CStr(dn), CStr(dv), post, false, 0));
      } else {
        Add(Param(name, value, post, false, 0));
      }
    }

    method AddParams(params: string, post: bool)
      modifies this
      ensures list == old(list) + ParseForm(params, post)
    {
      hide IndexOf, ParamOf;
      ghost var whole := list + ParseForm(params, post);
      var p, pend := 0, |params|;
      while p < pend
        invariant 0 <= p <= pend + 1
        invariant list + ParamsOf(params, FieldsFrom(params, p), post) == whole
        decreases pend - p
      {
        ghost var before, togo := list, ParamsOf(params, FieldsFrom(params, p), post);
        ParamsStep(params, p, post);
        p := AddNext(params, p, pend, post);
        ghost var rest := ParamsOf(params, FieldsFrom(params, p), post);
        Shift(before, list, rest, togo, whole);
      }
    }

    /** One turn of the loop: the parameter that starts at `p`. */
    method AddNext(params: string, p: nat, pend: nat, post: bool) returns (next: nat)
      requires p < pend == |params|
      modifies this
      ensures list == old(list) + [ParamOf(params, FieldAt(params, p), post)]
      ensures next == FieldAt(params, p).end + 1
    {
      var amp := IndexOf(params, '&', p, pend);
      var eq := IndexOf(params, '=', p, amp);
      AddParam(params[p..eq], if eq < amp then params[eq + 1..amp] else "", true, post);
      next := amp + 1;
    }
  }

  // ---------------------------------------------------------------------------
  //  Round trips
  // ---------------------------------------------------------------------------

  lemma HexDigit(v: nat)
    requires v < 16
    ensures IsXDigit(HEX[v]) && HexVal(HEX[v]) == v
  {
  }

  /** The encoded byte at position `|before|` decodes to itself and is skipped whole. */
  lemma {:induction false} DecodeByte(before: string, c: char, rest: string)
    requires IsOctet(c)
    ensures var s, i := before + EncodeByte(c) + rest, |before|;
            DecodeFrom(s, i) == [c] + DecodeFrom(s, i + |EncodeByte(c)|)
  {
    var e := EncodeByte(c);
    var s, i := before + e + rest, |before|;
    assert s[i] == e[0];
    if !IsUnreserved(c) {
      HexDigit(c as int / 16);
      HexDigit(c as int % 16);
      assert s[i + 1] == e[1] && s[i + 2] == e[2];
    }
  }

  lemma {:induction false} DecodeEncodeFrom(before: string, s: string)
    requires Octets(s)
    ensures DecodeFrom(before + Encode(s), |before|) == s
    decreases |s|
  {
    if |s| > 0 {
      var e, rest := EncodeByte(s[0]), Encode(s[1..]);
      assert before + Encode(s) == before + e + rest;
      DecodeByte(before, s[0], rest);
      DecodeEncodeFrom(before + e, s[1..]);
      assert s == [s[0]] + s[1..];
    }
  }

  /** Decoding inverts encoding on every byte string. */
  lemma DecodeEncode(s: string)
    requires Octets(s)
    ensures Decode(Encode(s)) == s
  {
    DecodeEncodeFrom("", s);
    assert "" + Encode(s) == Encode(s);
  }

  /** The encoded form uses nothing but unreserved characters, '%' and hex digits. */
  lemma {:induction false} EncodedAlphabet(s: string)
    requires Octets(s)
    ensures forall i :: 0 <= i < |Encode(s)| ==> IsUnreserved(Encode(s)[i]) || Encode(s)[i] == '%'
  {
    if |s| > 0 {
      EncodedAlphabet(s[1..]);
      var c := s[0];
      if !IsUnreserved(c) {
        HexDigit(c as int / 16);
        HexDigit(c as int % 16);
      }
    }
  }

  /** NUL-free byte strings, as C strings are. */
  ghost predicate Sendable(p: (string, string)) {
    Octets(p.0) && Octets(p.1) && '\0' !in p.0 && '\0' !in p.1
  }

  type Pair = p: (string, string) | Sendable(p) witness ("", "")

  /** What a browser sends: encoded names and values joined by '=' and '&'. */
  function FormOf(list: seq<Pair>): string {
    if |list| == 0 then ""
    else
      PairOf(list[0].0, list[0].1) + (if |list| == 1 then "" else "&" + FormOf(list[1..]))
  }

  function PairOf(name: string, value: string): string
    requires Octets(name) && Octets(value)
  {
    Encode(name) + "=" + Encode(value)
  }

  /** Field `f` of `s` holds the encoded pair `p`. */
  ghost predicate Holds(s: string, f: Field, p: Pair) {
    && Within(f, s) && f.eq < f.end
    && s[f.start..f.eq] == Encode(p.0) && s[f.eq + 1..f.end] == Encode(p.1)
  }

  /** The characters of `t` stand in `s` at position `at`. */
  ghost predicate Stands(s: string, at: nat, t: string) {
    at + |t| <= |s| && forall i :: 0 <= i < |t| ==> s[at + i] == t[i]
  }

  lemma FieldFound(s: string, b: nat, n: string, v: string)
    requires Stands(s, b, n) && b + |n| < |s| && s[b + |n|] == '=' && Stands(s, b + |n| + 1, v)
    requires '&' !in n && '=' !in n && '&' !in v
    requires b + |n| + 1 + |v| < |s| ==> s[b + |n| + 1 + |v|] == '&'
    ensures FieldAt(s, b) == Field(b, b + |n|, b + |n| + 1 + |v|)
    ensures s[b..b + |n|] == n && s[b + |n| + 1..b + |n| + 1 + |v|] == v
  {
    var e, q := b + |n|, b + |n| + 1 + |v|;
    forall k | b <= k < q
      ensures s[k] != '&'
    {
      if k < e { assert s[k] == n[k - b]; } else if k > e { assert s[k] == v[k - e - 1]; }
    }
    forall k | b <= k < e
      ensures s[k] != '='
    {
      assert s[k] == n[k - b];
    }
    FoundAt(s, '&', b, |s|, q);
    FoundAt(s, '=', b, q, e);
  }

  lemma NoSeparators(s: string)
    requires Octets(s)
    ensures '&' !in Encode(s) && '=' !in Encode(s)
  {
    EncodedAlphabet(s);
  }

  /** The first pair of a form body that is the rest of `s` is found as one field. */
  lemma FirstPair(s: string, b: nat, p: Pair, after: string)
    requires b <= |s| && s[b..] == PairOf(p.0, p.1) + after
    requires after == "" || after[0] == '&'
    ensures |PairOf(p.0, p.1)| > 0
    ensures FieldAt(s, b) == Field(b, b + |Encode(p.0)|, b + |PairOf(p.0, p.1)|)
    ensures Holds(s, FieldAt(s, b), p)
  {
    hide IndexOf, Encode;
    NoSeparators(p.0);
    NoSeparators(p.1);
    PairStands(s, b, Encode(p.0), Encode(p.1), after);
    FieldFound(s, b, Encode(p.0), Encode(p.1));
  }

  lemma PairStands(s: string, b: nat, n: string, v: string, after: string)
    requires b <= |s| && s[b..] == n + "=" + v + after
    ensures |s| == b + |n| + 1 + |v| + |after| && Stands(s, b, n) && Stands(s, b + |n| + 1, v) && s[b + |n|] == '='
    ensures after != "" ==> s[b + |n| + 1 + |v|] == after[0]
  {
    var t := s[b..];
    assert forall i :: 0 <= i < |t| ==> s[b + i] == t[i];
    assert forall i :: 0 <= i < |v| ==> t[|n| + 1 + i] == v[i];
  }

  lemma DropMore(s: string, b: nat, t: string, after: string)
    requires b <= |s| && s[b..] == t + after
    ensures b + |t| <= |s| && s[b + |t|..] == after
  {
  }

  /** The rest of `s` is a form body: its first pair, and what follows it. */
  lemma {:induction false} FormStep(s: string, b: nat, list: seq<Pair>) returns (e: nat)
    requires |list| > 0 && b <= |s| && s[b..] == FormOf(list)
    ensures b < e == b + |PairOf(list[0].0, list[0].1)| <= |s|
    ensures FieldAt(s, b) == Field(b, b + |Encode(list[0].0)|, e) && Holds(s, FieldAt(s, b), list[0])
    ensures |list| == 1 ==> e == |s|
    ensures |list| > 1 ==> e < |s| && s[e + 1..] == FormOf(list[1..])
  {
    hide IndexOf, Encode, PairOf, FieldAt;
    var pair := PairOf(list[0].0, list[0].1);
    var after := if |list| == 1 then "" else "&" + FormOf(list[1..]);
    FirstPair(s, b, list[0], after);
    DropMore(s, b, pair, after);
    e := b + |pair|;
    if |list| > 1 {
      DropMore(s, e, "&", FormOf(list[1..]));
    }
  }

  function AsParams(list: seq<Pair>, post: bool): seq<Param> {
    if |list| == 0 then [] else [Param(list[0].0, list[0].1, post, false, 0)] + AsParams(list[1..], post)
  }

  lemma FieldRoundTrip(s: string, f: Field, p: Pair, post: bool)
    requires Holds(s, f, p)
    ensures ParamOf(s, f, post) == Param(p.0, p.1, post, false, 0)
  {
    DecodeEncode(p.0);
    DecodeEncode(p.1);
    CStrWhole(p.0);
    CStrWhole(p.1);
  }

  lemma {:induction false} FieldsRoundTrip(s: string, b: nat, list: seq<Pair>, post: bool)
    requires b <= |s| && s[b..] == FormOf(list)
    ensures ParamsOf(s, FieldsFrom(s, b), post) == AsParams(list, post)
    decreases |list|
  {
    hide IndexOf, Encode, PairOf, FieldAt, Holds;
    if |list| > 0 {
      var e := FormStep(s, b, list);
      if |list| > 1 {
        FieldsRoundTrip(s, e + 1, list[1..], post);
      }
      ParamsCons(s, b, list, post);
    }
  }

  lemma ParamsCons(s: string, b: nat, list: seq<Pair>, post: bool)
    requires |list| > 0 && b < |s| && Holds(s, FieldAt(s, b), list[0])
    requires ParamsOf(s, FieldsFrom(s, FieldAt(s, b).end + 1), post) == AsParams(list[1..], post)
    ensures ParamsOf(s, FieldsFrom(s, b), post) == AsParams(list, post)
  {
    hide IndexOf, FieldAt, Encode, PairOf, FieldsFrom;
    ParamsStep(s, b, post);
    FieldRoundTrip(s, FieldAt(s, b), list[0], post);
  }

  /** Form round trip: for every list of NUL-free names and values, encoding them as a
      form body and parsing it back yields the same list, in order. */
  lemma FormRoundTrip(list: seq<Pair>, post: bool)
    ensures ParseForm(FormOf(list), post) == AsParams(list, post)
  {
    FieldsRoundTrip(FormOf(list), 0, list, post);
  }

  // ---------------------------------------------------------------------------
  //  Which strings decoding leaves alone
  // ---------------------------------------------------------------------------

  /** The hex digits of both cases, by their ASCII codes. */
  predicate HexCode(c: char) {
    var n := c as int;
    48 <= n <= 57 || 65 <= n <= 70 || 97 <= n <= 102
  }

  /** No '+', and no '%' with two hex digits after it, anywhere from position `from` on. */
  ghost predicate PlainFrom(s: string, from: nat) {
    forall i :: from <= i < |s| ==> s[i] != '+' && !(s[i] == '%' && i + 2 < |s| && HexPair(s, i + 1))
  }

  predicate HexPair(s: string, i: nat)
    requires i + 1 < |s|
  {
    HexCode(s[i]) && HexCode(s[i + 1])
  }

  ghost predicate Plain(s: string) {
    PlainFrom(s, 0)
  }

  lemma {:induction false} DecodeShrinks(s: string, i: nat)
    ensures |DecodeFrom(s, i)| <= if i < |s| then |s| - i else 0
    decreases |s| - i
  {
    if i < |s| {
      DecodeShrinks(s, if EscapeAt(s, i) then i + 3 else i + 1);
    }
  }

  lemma {:induction false} DecodeFixesPlainFrom(s: string, i: nat)
    requires i <= |s|
    ensures DecodeFrom(s, i) == s[i..] <==> PlainFrom(s, i)
    decreases |s| - i
  {
    if i < |s| {
      if EscapeAt(s, i) {
        DecodeShrinks(s, i + 3);
      } else {
        DecodeFixesPlainFrom(s, i + 1);
        var tail := DecodeFrom(s, i + 1);
        assert DecodeFrom(s, i)[1..] == tail;
        assert s[i..] == [s[i]] + s[i + 1..] && s[i..][1..] == s[i + 1..];
      }
    }
  }

  /** Decoding a string returns it unchanged if and only if it is plain. */
  lemma DecodeFixesPlain(s: string)
    ensures Decode(s) == s <==> Plain(s)
  {
    DecodeFixesPlainFrom(s, 0);
    assert s[0..] == s;
  }

  // ---------------------------------------------------------------------------
  //  What encoding leaves alone, and every spelling that decodes
  // ---------------------------------------------------------------------------

  /** The unreserved characters by their ASCII codes: digits, letters of both cases, - . _ ~ */
  predicate Unreserved(c: char) {
    var n := c as int;
    48 <= n <= 57 || 65 <= n <= 90 || 97 <= n <= 122 || n in {45, 46, 95, 126}
  }

  lemma UnreservedExactly(c: char)
    ensures IsUnreserved(c) <==> Unreserved(c)
  {
  }

  lemma {:induction false} EncodeGrows(s: string)
    requires Octets(s)
    ensures |Encode(s)| >= |s|
  {
    if |s| > 0 {
      EncodeGrows(s[1..]);
    }
  }

  /** Encoding returns a string unchanged if and only if every character of it is unreserved. */
  lemma {:induction false} EncodeFixes(s: string)
    requires Octets(s)
    ensures Encode(s) == s <==> forall i :: 0 <= i < |s| ==> Unreserved(s[i])
  {
    hide Unreserved;
    if |s| > 0 {
      EncodeFixes(s[1..]);
      EncodeGrows(s[1..]);
      UnreservedExactly(s[0]);
      assert s == [s[0]] + s[1..];
      if IsUnreserved(s[0]) {
        assert Encode(s)[1..] == Encode(s[1..]);
        assert forall i :: 0 < i < |s| ==> s[i] == s[1..][i - 1];
      }
    }
  }

  /** How a character is spelled in a form: as it is, a space as '+', or escaped. */
  datatype Spelling = Itself | Plus | Escape(high: char, low: char)

  /** A hex digit of either case. */
  predicate IsDigit(c: char, v: int) {
    || (v < 10 && c as int == '0' as int + v)
    || (10 <= v < 16 && (c as int == 'A' as int + v - 10 || c as int == 'a' as int + v - 10))
  }

  predicate Spells(t: Spelling, c: char) {
    match t
    case Itself => c != '+' && c != '%'
    case Plus => c == ' '
    case Escape(high, low) => IsOctet(c) && IsDigit(high, c as int / 16) && IsDigit(low, c as int % 16)
  }

  function Spelled(t: Spelling, c: char): string {
    match t
    case Itself => [c]
    case Plus => "+"
    case Escape(high, low) => ['%', high, low]
  }

  ghost predicate SpellsAll(ts: seq<Spelling>, s: string) {
    |ts| == |s| && forall i :: 0 <= i < |s| ==> Spells(ts[i], s[i])
  }

  function SpelledAll(ts: seq<Spelling>, s: string): string
    requires |ts| == |s|
  {
    if |s| == 0 then "" else Spelled(ts[0], s[0]) + SpelledAll(ts[1..], s[1..])
  }

  lemma DecodeSpelled(before: string, t: Spelling, c: char, rest: string)
    requires Spells(t, c)
    ensures var s, i := before + Spelled(t, c) + rest, |before|;
            DecodeFrom(s, i) == [c] + DecodeFrom(s, i + |Spelled(t, c)|)
  {
    var e := Spelled(t, c);
    var s, i := before + e + rest, |before|;
    assert s[i] == e[0];
    if t.Escape? {
      assert s[i + 1] == e[1] && s[i + 2] == e[2];
    }
  }

  lemma {:induction false} AnySpellingFrom(before: string, ts: seq<Spelling>, s: string)
    requires SpellsAll(ts, s)
    ensures DecodeFrom(before + SpelledAll(ts, s), |before|) == s
    decreases |s|
  {
    if |s| > 0 {
      var e, rest := Spelled(ts[0], s[0]), SpelledAll(ts[1..], s[1..]);
      assert before + SpelledAll(ts, s) == before + e + rest;
      DecodeSpelled(before, ts[0], s[0], rest);
      AnySpellingFrom(before + e, ts[1..], s[1..]);
      assert s == [s[0]] + s[1..];
    }
  }

  /** Decoding reads every spelling of a string: '+' for a space, escapes in digits of either case,
      also of characters that need none. */
  lemma AnySpelling(ts: seq<Spelling>, s: string)
    requires SpellsAll(ts, s)
    ensures Decode(SpelledAll(ts, s)) == s
  {
    AnySpellingFrom("", ts, s);
    assert "" + SpelledAll(ts, s) == SpelledAll(ts, s);
  }

  // ---------------------------------------------------------------------------
  //  Every form
  // ---------------------------------------------------------------------------

  /** A field as it is written, with or without an '='. */
  datatype Raw = Bare(name: string) | Assigned(name: string, value: string)

  predicate Separable(f: Raw) {
    '&' !in f.name && '=' !in f.name && (f.Assigned? ==> '&' !in f.value)
  }

  function Written(f: Raw): string {
    match f
    case Bare(name) => name
    case Assigned(name, value) => name + "=" + value
  }

  function FormText(fs: seq<Raw>): string {
    if |fs| == 0 then "" else Written(fs[0]) + if |fs| == 1 then "" else "&" + FormText(fs[1..])
  }

  /** One parameter for every field, decoded; but none for an empty one at the very end. */
  function FieldsRead(fs: seq<Raw>, post: bool): seq<Param> {
    if |fs| == 0 || fs == [Bare("")] then []
    else [Decoded(fs[0].name, if fs[0].Assigned? then fs[0].value else "", post)] + FieldsRead(fs[1..], post)
  }

  lemma RawField(s: string, b: nat, f: Raw, after: string)
    requires b <= |s| && s[b..] == Written(f) + after && Separable(f)
    requires after == "" || after[0] == '&'
    requires b < |s|
    ensures var g := FieldAt(s, b);
            && g.end == b + |Written(f)| && s[g.start..g.eq] == f.name
            && (if f.Assigned? then g.eq < g.end && s[g.eq + 1..g.end] == f.value else g.eq == g.end)
  {
    hide IndexOf;
    var q := b + |Written(f)|;
    if f.Assigned? {
      PairStands(s, b, f.name, f.value, after);
      FieldFound(s, b, f.name, f.value);
    } else {
      assert forall i :: 0 <= i < |s[b..]| ==> s[b + i] == s[b..][i];
      assert s[b..q] == f.name;
      forall k | b <= k < q
        ensures s[k] != '&' && s[k] != '='
      {
        assert s[k] == f.name[k - b];
      }
      FoundAt(s, '&', b, |s|, q);
      FoundAt(s, '=', b, q, q);
    }
  }

  lemma {:induction false} RawFrom(s: string, b: nat, fs: seq<Raw>, post: bool)
    requires b <= |s| && s[b..] == FormText(fs) && forall i :: 0 <= i < |fs| ==> Separable(fs[i])
    ensures ParamsOf(s, FieldsFrom(s, b), post) == FieldsRead(fs, post)
    decreases |fs|
  {
    hide IndexOf, FieldAt, Decoded, Written, ParamsOf, FieldsFrom;
    if b < |s| {
      var after := if |fs| == 1 then "" else "&" + FormText(fs[1..]);
      RawField(s, b, fs[0], after);
      DropMore(s, b, Written(fs[0]), after);
      var e := b + |Written(fs[0])|;
      ParamsStep(s, b, post);
      if |fs| > 1 {
        DropMore(s, e, "&", FormText(fs[1..]));
        RawFrom(s, e + 1, fs[1..], post);
      } else {
        NoFields(s, e + 1, post);
      }
      NotEmptyBare(fs, s, b);
    } else {
      NoFields(s, b, post);
      NothingJoined(fs);
    }
  }

  lemma NoFields(s: string, p: nat, post: bool)
    requires p >= |s|
    ensures ParamsOf(s, FieldsFrom(s, p), post) == []
  {
  }

  lemma NotEmptyBare(fs: seq<Raw>, s: string, b: nat)
    requires b < |s| && s[b..] == FormText(fs)
    ensures fs != [Bare("")]
  {
  }

  lemma NothingJoined(fs: seq<Raw>)
    ensures FormText(fs) == "" ==> fs == [] || fs == [Bare("")]
  {
  }

  /** Any form is parsed into one parameter a field, in order, with or without an '=', and split at
      the first of them; only an empty field at the end is not one. */
  lemma EveryForm(fs: seq<Raw>, post: bool)
    requires forall i :: 0 <= i < |fs| ==> Separable(fs[i])
    ensures ParseForm(FormText(fs), post) == FieldsRead(fs, post)
  {
    RawFrom(FormText(fs), 0, fs, post);
  }

  /** ... and every string is such a form. */
  lemma {:induction false} EveryString(s: string) returns (fs: seq<Raw>)
    ensures FormText(fs) == s && |fs| > 0 && forall i :: 0 <= i < |fs| ==> Separable(fs[i])
    decreases |s|
  {
    var amp := IndexOf(s, '&', 0, |s|);
    var f := Cut(s[..amp]);
    IndexFinds(s, '&', 0, |s|);
    if amp == |s| {
      assert s[..amp] == s;
      fs := [f];
    } else {
      var rest := EveryString(s[amp + 1..]);
      fs := [f] + rest;
      assert fs[1..] == rest;
      assert s == s[..amp] + ("&" + s[amp + 1..]);
    }
  }

  lemma {:induction false} IndexFinds(s: string, c: char, from: nat, limit: nat)
    requires from <= limit <= |s|
    ensures var i := IndexOf(s, c, from, limit); (i < limit ==> s[i] == c) && c !in s[from..i]
    decreases limit - from
  {
    if from < limit && s[from] != c {
      IndexFinds(s, c, from + 1, limit);
      var i := IndexOf(s, c, from, limit);
      assert s[from..i] == [s[from]] + s[from + 1..i];
    }
  }

  /** One field, cut at its first '='. */
  lemma Cut(t: string) returns (f: Raw)
    ensures Written(f) == t && ('&' !in t ==> Separable(f))
  {
    var eq := IndexOf(t, '=', 0, |t|);
    IndexFinds(t, '=', 0, |t|);
    if eq == |t| {
      assert t[..eq] == t && t[0..eq] == t;
      f := Bare(t);
    } else {
      assert t == t[..eq] + "=" + t[eq + 1..] && t[0..eq] == t[..eq];
      f := Assigned(t[..eq], t[eq + 1..]);
    }
  }
}
