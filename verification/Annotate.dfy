/**
 Track descriptors of the form annotate:key="value",key="value":path.

 The builder is _build_annotate_uri and _annotate_escape_value in app.py, the reader is
 extract_annotated_identity in audio_engine/protocol.py.  The main theorem is that the
 reader recovers from every built descriptor exactly the metadata and the path.
 */
module Annotate {

  const PREFIX: string := "annotate:"

  datatype Option<T> = None | Some(value: T)

  /** A key and the text between its quotes. */
  datatype Field = Field(key: string, text: string)

  predicate IsWord(c: char)
  {
    'A' <= c <= 'Z' || 'a' <= c <= 'z' || '0' <= c <= '9' || c == '_'
  }

  predicate AllWord(s: string)
  {
    forall i :: 0 <= i < |s| ==> IsWord(s[i])
  }

  /** White space as Python's str.strip sees it. */
  predicate IsSpace(c: char)
  {
    var u := c as int;
    9 <= u <= 13 || 28 <= u <= 32 || u == 0x85 || u == 0xa0 || u == 0x1680 || 0x2000 <= u <= 0x200a
    || u == 0x2028 || u == 0x2029 || u == 0x202f || u == 0x205f || u == 0x3000
  }

  function StripLeft(s: string): string
  {
    if s != "" && IsSpace(s[0]) then StripLeft(s[1..]) else s
  }

  function StripRight(s: string): string
  {
    if s != "" && IsSpace(s[|s| - 1]) then StripRight(s[..|s| - 1]) else s
  }

  function Strip(s: string): string { StripRight(StripLeft(s)) }

  // ---------- The builder ----------

  function Replace(s: string, c: char, with: string): string
  {
    if s == "" then "" else (if s[0] == c then with else [s[0]]) + Replace(s[1..], c, with)
  }

  function Escape(v: string): string
  {
    Replace(Replace(Replace(Replace(v, '\\', "\\\\"), '"', "\\\""), '\n', " "), '\r', " ")
  }

  function Part(f: Field): string { f.key + "=\"" + Escape(f.text) + "\"" }

  /** The fields with a usable key, the key trimmed. */
  function Usable(meta: seq<Field>): (fields: seq<Field>)
    ensures forall i :: 0 <= i < |fields| ==> fields[i].key != "" && AllWord(fields[i].key)
  {
    if meta == [] then []
    else
      var key := Strip(meta[0].key);
      (if key != "" && AllWord(key) then [Field(key, meta[0].text)] else []) + Usable(meta[1..])
  }

  function Join(fields: seq<Field>): string
  {
    if fields == [] then ""
    else if |fields| == 1 then Part(fields[0])
    else Part(fields[0]) + "," + Join(fields[1..])
  }

  function Build(meta: seq<Field>, path: string): string
  {
    PREFIX + Join(Usable(meta)) + ":" + path
  }

  // ---------- The reader: the path separator ----------

  datatype Scan = Scan(inQuotes: bool, escaped: bool)

  const OUTSIDE := Scan(false, false)

  function ScanChar(st: Scan, c: char): Scan
  {
    if st.escaped then st.(escaped := false)
    else if c == '\\' && st.inQuotes then st.(escaped := true)
    else if c == '"' then st.(inQuotes := !st.inQuotes)
    else st
  }

  predicate IsSeparator(st: Scan, c: char)
  {
    !st.escaped && !st.inQuotes && c == ':'
  }

  /** The first colon outside quotes. */
  function FindColon(s: string, st: Scan): (at: Option<nat>)
    ensures at.Some? ==> at.value < |s| && s[at.value] == ':'
  {
    if s == "" then None
    else if IsSeparator(st, s[0]) then Some(0)
    else
      match FindColon(s[1..], ScanChar(st, s[0]))
      case None => None
      case Some(n) => Some(n + 1)
  }

  method FindSeparator(body: string) returns (separator: int)
    ensures separator == (match FindColon(body, OUTSIDE) case None => -1 case Some(n) => n)
  {
    var inQuotes, escaped := false, false;
    separator := -1;
    var index := 0;
    while index < |body|
      invariant index <= |body| && separator == -1
      invariant FindColon(body, OUTSIDE)
             == match FindColon(body[index..], Scan(inQuotes, escaped))
                case None => None
                case Some(n) => Some(index + n)
    {
      var c := body[index];
      assert body[index..][1..] == body[index + 1..];
      if escaped {
        escaped := false;
      } else if c == '\\' && inQuotes {
        escaped := true;
      } else if c == '"' {
        inQuotes := !inQuotes;
      } else if c == ':' && !inQuotes {
        return index;
      }
      index := index + 1;
    }
  }

  // ---------- The reader: key="value" fields ----------

  function WordLength(s: string): (n: nat)
    ensures n <= |s| && AllWord(s[..n]) && (n < |s| ==> !IsWord(s[n]))
  {
    if s == "" || !IsWord(s[0]) then 0 else 1 + WordLength(s[1..])
  }

  /** The length of the value before its closing quote; a backslash takes the next character
      with it, except a newline. */
  function ValueLength(s: string): (n: Option<nat>)
    ensures n.Some? ==> n.value < |s| && s[n.value] == '"'
    decreases |s|
  {
    if s == "" then None
    else if s[0] == '"' then Some(0)
    else
      var step := if s[0] == '\\' then 2 else 1;
      if |s| < step || (step == 2 && s[1] == '\n') then None
      else
        match ValueLength(s[step..])
        case None => None
        case Some(n) => Some(n + step)
  }

  /** The field at the very start of `s`, and where it ends. */
  function FieldAtStart(s: string): (r: Option<(Field, nat)>)
    ensures r.Some? ==> 0 < r.value.1 <= |s|
  {
    FieldOfKey(s, WordLength(s))
  }

  /** The field whose key is the first `k` characters. */
  function FieldOfKey(s: string, k: nat): (r: Option<(Field, nat)>)
    ensures r.Some? ==> 0 < r.value.1 <= |s|
  {
    if k == 0 || k + 1 >= |s| || s[k] != '=' || s[k + 1] != '"' then None
    else
      match ValueLength(s[k + 2..])
      case None => None
      case Some(n) => Some((Field(s[..k], s[k + 2..k + 2 + n]), k + 3 + n))
  }

  /** Every field of `s`, from left to right and without overlap. */
  function FindFields(s: string): seq<Field>
    decreases |s|
  {
    if s == "" then []
    else
      match FieldAtStart(s)
      case None => FindFields(s[1..])
      case Some(r) => [r.0] + FindFields(s[r.1..])
  }

  function Unescape(raw: string): string
    decreases |raw|
  {
    if raw == "" then ""
    else if raw[0] == '\\' && |raw| > 1 && (raw[1] == '\\' || raw[1] == '"') then [raw[1]] + Unescape(raw[2..])
    else [raw[0]] + Unescape(raw[1..])
  }

  method UnescapeValue(raw: string) returns (chars: string)
    ensures chars == Unescape(raw)
  {
    chars := "";
    var index := 0;
    while index < |raw|
      invariant index <= |raw|
      invariant chars + Unescape(raw[index..]) == Unescape(raw)
    {
      var c := raw[index];
      if c == '\\' && index + 1 < |raw| && (raw[index + 1] == '\\' || raw[index + 1] == '"') {
        assert raw[index..][2..] == raw[index + 2..];
        chars := chars + [raw[index + 1]];
        index := index + 2;
        continue;
      }
      assert raw[index..][1..] == raw[index + 1..];
      chars := chars + [c];
      index := index + 1;
    }
  }

  type Metadata = map<string, string>

  /** Later fields overwrite earlier ones. */
  function Collect(fields: seq<Field>): Metadata
  {
    if fields == [] then map[]
    else Collect(fields[..|fields| - 1])[fields[|fields| - 1].key := Unescape(fields[|fields| - 1].text)]
  }

  /** `seen` are the fields read so far, `rest` is the text that follows them. */
  predicate Reading(head: string, seen: seq<Field>, rest: string)
  {
    seen + FindFields(rest) == FindFields(head)
  }

  lemma FieldComesFirst(rest: string, f: Field, end: nat)
    requires FieldAtStart(rest) == Some((f, end)) && end <= |rest|
    ensures FindFields(rest) == [f] + FindFields(rest[end..])
  {
  }

  lemma TakeField(head: string, seen: seq<Field>, rest: string, f: Field, end: nat)
    requires Reading(head, seen, rest) && FieldAtStart(rest) == Some((f, end)) && end <= |rest|
    ensures Reading(head, seen + [f], rest[end..])
  {
    FieldComesFirst(rest, f, end);
    var more := FindFields(rest[end..]);
    assert seen + ([f] + more) == seen + [f] + more;
  }

  lemma CollectOneMore(fields: seq<Field>, f: Field)
    ensures Collect(fields + [f]) == Collect(fields)[f.key := Unescape(f.text)]
  {
    assert (fields + [f])[..|fields|] == fields;
  }

  method ReadFields(head: string) returns (metadata: Metadata)
    ensures metadata == Collect(FindFields(head))
  {
    metadata := map[];
    ghost var seen: seq<Field> := [];
    var rest := head;
    while rest != ""
      invariant Reading(head, seen, rest)
      invariant metadata == Collect(seen)
      decreases |rest|
    {
      var found := FieldAtStart(rest);
      if found == None {
        rest := rest[1..];
      } else {
        var field, end := found.value.0, found.value.1;
        var value := UnescapeValue(field.text);
        TakeField(head, seen, rest, field, end);
        CollectOneMore(seen, field);
        metadata := metadata[field.key := value];
        seen := seen + [field];
        rest := rest[end..];
      }
    }
    assert seen + [] == seen;
  }

  datatype Identity = Identity(metadata: Metadata, path: string)

  /** The metadata and the path of a descriptor; a text that is not one is all path. */
  function Extract(uri: string): Identity
  {
    var value := Strip(uri);
    if !(PREFIX <= value) then Identity(map[], Strip(value))
    else
      var body := value[|PREFIX|..];
      match FindColon(body, OUTSIDE)
      case None => Identity(map[], Strip(value))
      case Some(n) => Identity(Collect(FindFields(body[..n])), Strip(body[n + 1..]))
  }

  method ExtractIdentity(uri: string) returns (identity: Identity)
    ensures identity == Extract(uri)
  {
    var value := Strip(uri);
    identity := Identity(map[], Strip(value));
    if PREFIX <= value {
      var body := value[|PREFIX|..];
      var separator := FindSeparator(body);
      if separator >= 0 {
        var metadata := ReadFields(body[..separator]);
        identity := Identity(metadata, Strip(body[separator + 1..]));
      }
    }
  }

  // ---------- Reading inverts building ----------

  /** What a value becomes on the way: line breaks turn into spaces. */
  function Clean(v: string): string
  {
    if v == "" then "" else [if v[0] == '\n' || v[0] == '\r' then ' ' else v[0]] + Clean(v[1..])
  }

  function EscapeChar(c: char): string
  {
    if c == '\\' then "\\\\" else if c == '"' then "\\\"" else if c == '\n' || c == '\r' then " " else [c]
  }

  lemma {:induction false} ReplaceConcat(a: string, b: string, c: char, with: string)
    ensures Replace(a + b, c, with) == Replace(a, c, with) + Replace(b, c, with)
  {
    if a == "" {
      assert a + b == b;
    } else {
      assert (a + b)[1..] == a[1..] + b;
      ReplaceConcat(a[1..], b, c, with);
    }
  }

  lemma ReplaceShort(s: string, c: char, with: string)
    requires 1 <= |s| <= 2 && c !in s
    ensures Replace(s, c, with) == s
  {
    if |s| == 2 {
      assert s[1..] == [s[1]];
      assert Replace([s[1]], c, with) == [s[1]];
    }
  }

  /** The four replacements act on each character by itself. */
  lemma {:induction false} EscapeIsCharwise(v: string)
    requires v != ""
    ensures Escape(v) == EscapeChar(v[0]) + Escape(v[1..])
  {
    var c, rest := v[0], v[1..];
    var r1 := Replace(rest, '\\', "\\\\");
    var r2 := Replace(r1, '"', "\\\"");
    var r3 := Replace(r2, '\n', " ");
    var h1 := if c == '\\' then "\\\\" else [c];
    ReplaceConcat(h1, r1, '"', "\\\"");
    var h2 := if c == '"' then "\\\"" else h1;
    if c == '"' { assert Replace([c], '"', "\\\"") == "\\\""; } else { ReplaceShort(h1, '"', "\\\""); }
    ReplaceConcat(h2, r2, '\n', " ");
    var h3 := if c == '\n' then " " else h2;
    if c == '\n' { assert Replace([c], '\n', " ") == " "; } else { ReplaceShort(h2, '\n', " "); }
    ReplaceConcat(h3, r3, '\r', " ");
    if c == '\r' { assert Replace([c], '\r', " ") == " "; } else { ReplaceShort(h3, '\r', " "); }
  }

  lemma {:induction false} UnescapeInvertsEscape(v: string)
    ensures Unescape(Escape(v)) == Clean(v)
  {
    if v != "" {
      EscapeIsCharwise(v);
      UnescapeInvertsEscape(v[1..]);
      var c, rest := v[0], Escape(v[1..]);
      if c == '\\' || c == '"' {
        assert Escape(v)[2..] == rest;
      } else {
        assert Escape(v)[1..] == rest;
      }
    }
  }

  lemma PlainIsPassed(s: string, tail: string)
    requires s != "" && s[0] != '\\' && s[0] != '"' && s[1..] == tail && ValueLength(tail).Some?
    ensures ValueLength(s) == Some(1 + ValueLength(tail).value)
  {
  }

  lemma EscapeIsPassed(s: string, tail: string)
    requires |s| >= 2 && s[0] == '\\' && s[1] != '\n' && s[2..] == tail && ValueLength(tail).Some?
    ensures ValueLength(s) == Some(2 + ValueLength(tail).value)
  {
  }

  lemma {:induction false} ValueEndsAtItsQuote(v: string, rest: string)
    ensures ValueLength(Escape(v) + "\"" + rest) == Some(|Escape(v)|)
  {
    var s := Escape(v) + "\"" + rest;
    if v != "" {
      EscapeIsCharwise(v);
      ValueEndsAtItsQuote(v[1..], rest);
      var head, tail := EscapeChar(v[0]), Escape(v[1..]) + "\"" + rest;
      assert s == head + tail;
      assert s[|head|..] == tail;
      if |head| == 1 { PlainIsPassed(s, tail); } else { EscapeIsPassed(s, tail); }
    }
  }

  lemma {:induction false} WordEndsAtEquals(key: string, rest: string)
    requires AllWord(key)
    ensures WordLength(key + "=" + rest) == |key|
  {
    if key != "" {
      assert (key + "=" + rest)[1..] == key[1..] + "=" + rest;
      WordEndsAtEquals(key[1..], rest);
    }
  }

  lemma FieldIsFound(key: string, text: string, rest: string, value: string, s: string)
    requires key != "" && AllWord(key) && value == Escape(text)
    requires s == key + "=" + ("\"" + (value + "\"" + rest))
    ensures FieldAtStart(s) == Some((Field(key, value), |key| + 3 + |value|))
  {
    var tail := value + "\"" + rest;
    WordEndsAtEquals(key, "\"" + tail);
    ValueEndsAtItsQuote(text, rest);
    CutField(s, key, value, rest, tail);
    FieldIsThere(s, key, value, tail);
  }

  lemma CutField(s: string, key: string, value: string, rest: string, tail: string)
    requires tail == value + "\"" + rest && s == key + "=" + ("\"" + tail)
    ensures HasParts(s, key, value, tail)
  {
  }

  predicate HasParts(s: string, key: string, value: string, tail: string)
  {
    && |s| > |key| + 2 + |value| && s[|key|] == '=' && s[|key| + 1] == '"'
    && s[..|key|] == key && s[|key| + 2..] == tail && s[|key| + 2..|key| + 2 + |value|] == value
  }

  lemma FieldIsThere(s: string, key: string, value: string, tail: string)
    requires key != "" && HasParts(s, key, value, tail)
    requires ValueLength(tail) == Some(|value|)
    ensures FieldOfKey(s, |key|) == Some((Field(key, value), |key| + 3 + |value|))
  {
  }

  lemma PartIsAField(f: Field, rest: string)
    requires f.key != "" && AllWord(f.key)
    ensures FindFields(Part(f) + rest) == [Field(f.key, Escape(f.text))] + FindFields(rest)
  {
    var value := Escape(f.text);
    var s := f.key + "=" + ("\"" + (value + "\"" + rest));
    FieldIsFound(f.key, f.text, rest, value, s);
    assert Part(f) + rest == s;
    assert s[|f.key| + 3 + |value|..] == rest;
  }

  lemma CommaIsSkipped(rest: string)
    ensures FindFields("," + rest) == FindFields(rest)
  {
    assert ("," + rest)[1..] == rest;
  }

  function Escaped(fields: seq<Field>): seq<Field>
  {
    seq(|fields|, i requires 0 <= i < |fields| => Field(fields[i].key, Escape(fields[i].text)))
  }

  lemma {:induction false} FieldsOfJoin(fields: seq<Field>)
    requires forall i :: 0 <= i < |fields| ==> fields[i].key != "" && AllWord(fields[i].key)
    ensures FindFields(Join(fields)) == Escaped(fields)
  {
    if fields != [] {
      var f, rest := fields[0], fields[1..];
      assert Escaped(fields) == [Field(f.key, Escape(f.text))] + Escaped(rest);
      FieldsOfJoin(rest);
      if rest == [] {
        PartIsAField(f, "");
        assert Part(f) + "" == Part(f);
      } else {
        PartIsAField(f, "," + Join(rest));
        CommaIsSkipped(Join(rest));
        assert Part(f) + ("," + Join(rest)) == Join(fields);
      }
    }
  }

  /** Scanning `s` from `st` meets no separator and ends in `end`. */
  predicate Passes(s: string, st: Scan, end: Scan)
  {
    if s == "" then st == end else !IsSeparator(st, s[0]) && Passes(s[1..], ScanChar(st, s[0]), end)
  }

  lemma {:induction false} PassesConcat(a: string, b: string, st: Scan, mid: Scan, end: Scan)
    requires Passes(a, st, mid) && Passes(b, mid, end)
    ensures Passes(a + b, st, end)
  {
    if a == "" {
      assert a + b == b;
    } else {
      assert (a + b)[1..] == a[1..] + b;
      PassesConcat(a[1..], b, ScanChar(st, a[0]), mid, end);
    }
  }

  lemma {:induction false} ColonAfter(a: string, b: string, st: Scan)
    requires Passes(a, st, OUTSIDE)
    ensures FindColon(a + ":" + b, st) == Some(|a|)
  {
    var s := a + ":" + b;
    if a != "" {
      assert s[1..] == a[1..] + ":" + b;
      ColonAfter(a[1..], b, ScanChar(st, a[0]));
    }
  }

  lemma {:induction false} WordPasses(key: string)
    requires AllWord(key)
    ensures Passes(key, OUTSIDE, OUTSIDE)
  {
    if key != "" { WordPasses(key[1..]); }
  }

  lemma {:induction false} EscapedPasses(v: string)
    ensures Passes(Escape(v), Scan(true, false), Scan(true, false))
  {
    if v != "" {
      EscapeIsCharwise(v);
      EscapedPasses(v[1..]);
      var head, inside := EscapeChar(v[0]), Scan(true, false);
      assert Passes(head, inside, inside) by {
        if |head| == 2 {
          assert head[1..] == [head[1]];
          assert [head[1]][1..] == "";
        } else {
          assert head[1..] == "";
        }
      }
      PassesConcat(head, Escape(v[1..]), inside, inside, inside);
    }
  }

  lemma CharPasses(c: char, st: Scan)
    requires !IsSeparator(st, c)
    ensures Passes([c], st, ScanChar(st, c))
  {
    assert [c][1..] == "";
  }

  lemma PartPasses(f: Field)
    requires AllWord(f.key)
    ensures Passes(Part(f), OUTSIDE, OUTSIDE)
  {
    var inside := Scan(true, false);
    WordPasses(f.key);
    EscapedPasses(f.text);
    CharPasses('=', OUTSIDE);
    CharPasses('"', OUTSIDE);
    CharPasses('"', inside);
    PassesConcat("=", "\"", OUTSIDE, OUTSIDE, inside);
    assert "=" + "\"" == "=\"";
    PassesConcat(f.key, "=\"", OUTSIDE, OUTSIDE, inside);
    PassesConcat(f.key + "=\"", Escape(f.text), OUTSIDE, inside, inside);
    PassesConcat(f.key + "=\"" + Escape(f.text), "\"", OUTSIDE, inside, OUTSIDE);
  }

  lemma {:induction false} JoinPasses(fields: seq<Field>)
    requires forall i :: 0 <= i < |fields| ==> AllWord(fields[i].key)
    ensures Passes(Join(fields), OUTSIDE, OUTSIDE)
  {
    if fields != [] {
      PartPasses(fields[0]);
      if |fields| > 1 {
        JoinPasses(fields[1..]);
        CharPasses(',', OUTSIDE);
        PassesConcat(Part(fields[0]), ",", OUTSIDE, OUTSIDE, OUTSIDE);
        PassesConcat(Part(fields[0]) + ",", Join(fields[1..]), OUTSIDE, OUTSIDE, OUTSIDE);
      }
    }
  }

  lemma {:induction false} StripRightKeepsFront(a: string, b: string)
    requires a != "" && !IsSpace(a[|a| - 1])
    ensures StripRight(a + b) == a + StripRight(b)
  {
    if b == "" {
      assert a + b == a;
    } else if IsSpace(b[|b| - 1]) {
      assert (a + b)[..|a + b| - 1] == a + b[..|b| - 1];
      StripRightKeepsFront(a, b[..|b| - 1]);
    }
  }

  lemma {:induction false} StripsCommute(s: string)
    ensures Strip(StripRight(s)) == Strip(s)
  {
    if s != "" && IsSpace(s[|s| - 1]) {
      var t := s[..|s| - 1];
      StripsCommute(t);
      DropLastSpace(s);
    } else {
      assert StripRight(s) == s;
    }
  }

  lemma {:induction false} DropLastSpace(s: string)
    requires s != "" && IsSpace(s[|s| - 1])
    ensures Strip(s[..|s| - 1]) == Strip(s)
  {
    var t := s[..|s| - 1];
    if t == "" {
      assert s[1..] == "";
    } else if IsSpace(s[0]) {
      assert s[1..][..|s| - 2] == t[1..];
      DropLastSpace(s[1..]);
    }
  }

  /** What the reader is to recover: the usable fields, later ones winning, line breaks as
      spaces. */
  function Meaning(meta: seq<Field>): Metadata
  {
    CleanCollect(Usable(meta))
  }

  function CleanCollect(fields: seq<Field>): Metadata
  {
    if fields == [] then map[]
    else CleanCollect(fields[..|fields| - 1])[fields[|fields| - 1].key := Clean(fields[|fields| - 1].text)]
  }

  lemma {:induction false} CollectEscaped(fields: seq<Field>)
    ensures Collect(Escaped(fields)) == CleanCollect(fields)
  {
    if fields != [] {
      var n := |fields| - 1;
      assert Escaped(fields)[..n] == Escaped(fields[..n]);
      CollectEscaped(fields[..n]);
      UnescapeInvertsEscape(fields[n].text);
    }
  }

  /** Reading a built descriptor gives back its metadata and its path, for any metadata and
      any path; outer white space of the path is not kept. */
  lemma ReadingInvertsBuilding(meta: seq<Field>, path: string)
    ensures Extract(Build(meta, path)) == Identity(Meaning(meta), Strip(path))
  {
    var fields := Usable(meta);
    var head := Join(fields);
    var front := PREFIX + head + ":";
    assert Build(meta, path) == front + path;
    assert StripLeft(front + path) == front + path;
    StripRightKeepsFront(front, path);
    var value := front + StripRight(path);
    assert Strip(Build(meta, path)) == value;
    var body := value[|PREFIX|..];
    assert body == head + ":" + StripRight(path);
    JoinPasses(fields);
    ColonAfter(head, StripRight(path), OUTSIDE);
    assert body[..|head|] == head && body[|head| + 1..] == StripRight(path);
    FieldsOfJoin(fields);
    CollectEscaped(fields);
    StripsCommute(path);
  }

  /** The value read for a key is the one of its last usable field, and only such keys are
      read. */
  lemma {:induction false} LastFieldWins(fields: seq<Field>, key: string)
    ensures key in CleanCollect(fields) <==> exists i :: 0 <= i < |fields| && fields[i].key == key
    ensures forall i ::
              0 <= i < |fields| && fields[i].key == key && (forall j :: i < j < |fields| ==> fields[j].key != key)
              ==> CleanCollect(fields)[key] == Clean(fields[i].text)
  {
    if fields != [] {
      var n := |fields| - 1;
      LastFieldWins(fields[..n], key);
      if key in CleanCollect(fields[..n]) {
        var i :| 0 <= i < n && fields[..n][i].key == key;
        assert fields[i].key == key;
      }
      forall i | 0 <= i < |fields| && fields[i].key == key && (forall j :: i < j < |fields| ==> fields[j].key != key)
        ensures CleanCollect(fields)[key] == Clean(fields[i].text)
      {
        if i < n { assert fields[..n][i].key == key && fields[n].key != key; }
      }
    }
  }
}
