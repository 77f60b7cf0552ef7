/** Label escaping in the Prometheus text exposition format, and reading it back. */
module Prometheus {
  import opened Common

  /** `str.replace` of a one-character pattern. */
  function Replace(s: string, c: char, with: string): string {
    if s == "" then "" else (if s[0] == c then with else [s[0]]) + Replace(s[1..], c, with)
  }

  function Escape(value: string): string {
    Replace(Replace(Replace(value, '\\', "\\\\"), '"', "\\\""), '\n', "\\n")
  }

  function EscapeChar(c: char): string {
    if c == '\\' then "\\\\" else if c == '"' then "\\\"" else if c == '\n' then "\\n" else [c]
  }

  function EscapeEach(s: string): string {
    if s == "" then "" else EscapeChar(s[0]) + EscapeEach(s[1..])
  }

  lemma {:induction false} ReplaceConcat(s: string, t: string, c: char, r: string)
    ensures Replace(s + t, c, r) == Replace(s, c, r) + Replace(t, c, r)
  {
    if s == "" {
      assert s + t == t;
    } else {
      assert (s + t)[1..] == s[1..] + t;
      ReplaceConcat(s[1..], t, c, r);
    }
  }

  lemma {:induction false} ReplaceChar(d: char, c: char, r: string)
    ensures Replace([d], c, r) == if d == c then r else [d]
  {
    assert [d][1..] == "";
  }

  lemma {:induction false} ReplacePair(d: char, e: char, c: char, r: string)
    ensures Replace([d, e], c, r) == (if d == c then r else [d]) + (if e == c then r else [e])
  {
    ReplaceChar(d, c, r);
    ReplaceChar(e, c, r);
    assert [d, e] == [d] + [e];
    ReplaceConcat([d], [e], c, r);
  }

  lemma {:induction false} EscapeOneChar(c: char)
    ensures Escape([c]) == EscapeChar(c)
  {
    ReplaceChar(c, '\\', "\\\\");
    ReplaceChar(c, '"', "\\\"");
    ReplaceChar(c, '\n', "\\n");
    ReplacePair('\\', '\\', '"', "\\\"");
    ReplacePair('\\', '\\', '\n', "\\n");
    ReplacePair('\\', '"', '\n', "\\n");
  }

  lemma {:induction false} EscapeConcat(s: string, t: string)
    ensures Escape(s + t) == Escape(s) + Escape(t)
  {
    ReplaceConcat(s, t, '\\', "\\\\");
    var a, b := Replace(s, '\\', "\\\\"), Replace(t, '\\', "\\\\");
    ReplaceConcat(a, b, '"', "\\\"");
    ReplaceConcat(Replace(a, '"', "\\\""), Replace(b, '"', "\\\""), '\n', "\\n");
  }

  /** The three whole-string passes in this order never touch what an earlier pass produced. */
  lemma {:induction false} EscapeIsPerChar(s: string)
    ensures Escape(s) == EscapeEach(s)
  {
    if s != "" {
      assert s == [s[0]] + s[1..];
      EscapeConcat([s[0]], s[1..]);
      EscapeOneChar(s[0]);
      EscapeIsPerChar(s[1..]);
    }
  }

  /** The three characters that are escaped, and what stands for them; every other one stands for itself. */
  lemma {:induction false} EscapesExactly(c: char)
    ensures Escape("\\") == "\\\\" && Escape("\"") == "\\\"" && Escape("\n") == "\\n"
    ensures c != '\\' && c != '"' && c != '\n' ==> Escape([c]) == [c]
  {
    EscapeOneChar('\\');
    EscapeOneChar('"');
    EscapeOneChar('\n');
    EscapeOneChar(c);
  }

  /** What a backslash and this character stand for. */
  function UnescapeChar(c: char): Option<char> {
    if c == '\\' then Some('\\') else if c == '"' then Some('"') else if c == 'n' then Some('\n') else None
  }

  datatype Quoted = Quoted(value: string, rest: string)

  /** Reads a label value up to its closing quote, and what follows the quote. */
  function ReadValue(s: string): Option<Quoted> {
    if s == "" || s[0] == '\n' then None
    else if s[0] == '"' then Some(Quoted("", s[1..]))
    else if s[0] != '\\' then Prepend(s[0], ReadValue(s[1..]))
    else if |s| == 1 || UnescapeChar(s[1]).None? then None
    else Prepend(UnescapeChar(s[1]).value, ReadValue(s[2..]))
  }

  function Prepend(c: char, r: Option<Quoted>): Option<Quoted> {
    if r.None? then None else Some(Quoted([c] + r.value.value, r.value.rest))
  }

  /** One escaped character in front of what can be read. */
  lemma {:induction false} ReadOneMore(c: char, tail: string)
    ensures ReadValue(EscapeChar(c) + tail) == Prepend(c, ReadValue(tail))
  {
    var all := EscapeChar(c) + tail;
    if |EscapeChar(c)| == 1 {
      assert all[1..] == tail;
    } else {
      assert all[2..] == tail;
    }
  }

  /** The reader stops exactly at the end of the escaped value and recovers it. */
  lemma {:induction false} ReadValueUndoesEscape(v: string, rest: string)
    ensures ReadValue(Escape(v) + "\"" + rest) == Some(Quoted(v, rest))
  {
    EscapeIsPerChar(v);
    ReadEach(v, rest);
  }

  lemma {:induction false} ReadEach(v: string, rest: string)
    ensures ReadValue(EscapeEach(v) + "\"" + rest) == Some(Quoted(v, rest))
  {
    if v == "" {
      assert EscapeEach(v) + "\"" + rest == "\"" + rest;
      assert ("\"" + rest)[1..] == rest;
    } else {
      ReadEach(v[1..], rest);
      var tail := EscapeEach(v[1..]) + "\"" + rest;
      assert EscapeEach(v) + "\"" + rest == EscapeChar(v[0]) + tail;
      ReadOneMore(v[0], tail);
      assert [v[0]] + v[1..] == v;
    }
  }

  datatype Label = Label(name: string, value: string)

  function Render(l: Label): string {
    l.name + "=\"" + Escape(l.value) + "\""
  }

  function Join(ls: seq<Label>): string {
    if ls == [] then "" else if |ls| == 1 then Render(ls[0]) else Render(ls[0]) + "," + Join(ls[1..])
  }

  function Labels(ls: seq<Label>): string {
    "{" + Join(ls) + "}"
  }

  /** Everything up to the first equals sign, and what follows it. */
  function ReadName(s: string): Option<Quoted> {
    if s == "" then None
    else if s[0] == '=' then Some(Quoted("", s[1..]))
    else Prepend(s[0], ReadName(s[1..]))
  }

  lemma {:induction false} ReadNameStopsAtEquals(name: string, rest: string)
    requires '=' !in name
    ensures ReadName(name + "=" + rest) == Some(Quoted(name, rest))
  {
    var all := name + "=" + rest;
    if name == "" {
      assert all[1..] == rest;
    } else {
      ReadNameStopsAtEquals(name[1..], rest);
      assert all[1..] == name[1..] + "=" + rest;
      assert [name[0]] + name[1..] == name;
    }
  }

  lemma {:induction false} ReadersConsume(s: string)
    ensures ReadValue(s).Some? ==> |ReadValue(s).value.rest| < |s|
    ensures ReadName(s).Some? ==> |ReadName(s).value.rest| < |s|
    decreases |s|
  {
    if s != "" {
      ReadersConsume(s[1..]);
      if |s| > 1 {
        ReadersConsume(s[2..]);
      }
    }
  }

  /** Parses `name="value"` pairs separated by commas up to the closing brace. */
  function ParsePairs(s: string): Option<seq<Label>>
    decreases |s|
  {
    ReadersConsume(s);
    var name := ReadName(s);
    if name.None? || name.value.rest == "" || name.value.rest[0] != '"' then None
    else
      ReadersConsume(name.value.rest[1..]);
      var value := ReadValue(name.value.rest[1..]);
      if value.None? || value.value.rest == "" then None
      else
        var l, rest := Label(name.value.value, value.value.value), value.value.rest;
        if rest == "}" then Some([l])
        else if rest[0] != ',' then None
        else
          var more := ParsePairs(rest[1..]);
          if more.None? then None else Some([l] + more.value)
  }

  function ParseLabels(s: string): Option<seq<Label>> {
    if s == "{}" then Some([])
    else if s == "" || s[0] != '{' then None
    else ParsePairs(s[1..])
  }

  lemma {:induction false} ParseFirst(l: Label, rest: string)
    requires '=' !in l.name && rest != ""
    ensures ParsePairs(Render(l) + rest) ==
      if rest == "}" then Some([l])
      else if rest[0] != ',' then None
      else var more := ParsePairs(rest[1..]); if more.None? then None else Some([l] + more.value)
  {
    var all := Render(l) + rest;
    var tail := "\"" + (Escape(l.value) + "\"" + rest);
    assert all == l.name + "=" + tail;
    ReadNameStopsAtEquals(l.name, tail);
    assert tail[1..] == Escape(l.value) + "\"" + rest;
    ReadValueUndoesEscape(l.value, rest);
  }

  lemma {:induction false} JoinUnfolds(ls: seq<Label>)
    requires |ls| > 1
    ensures Join(ls) + "}" == Render(ls[0]) + ("," + (Join(ls[1..]) + "}"))
  {
    var a, b := Render(ls[0]), Join(ls[1..]);
    assert a + "," + b + "}" == a + ("," + (b + "}"));
  }

  lemma {:induction false} PairsRoundTrip(ls: seq<Label>)
    requires ls != [] && forall l :: l in ls ==> '=' !in l.name
    ensures ParsePairs(Join(ls) + "}") == Some(ls)
  {
    if |ls| == 1 {
      ParseFirst(ls[0], "}");
      assert ls == [ls[0]];
    } else {
      PairsRoundTrip(ls[1..]);
      var rest := "," + (Join(ls[1..]) + "}");
      JoinUnfolds(ls);
      assert rest[1..] == Join(ls[1..]) + "}";
      ParseFirst(ls[0], rest);
      assert ls == [ls[0]] + ls[1..];
    }
  }

  /** Whatever the values contain, the rendered set parses back to exactly the given labels. */
  lemma {:induction false} LabelsRoundTrip(ls: seq<Label>)
    requires forall l :: l in ls ==> '=' !in l.name
    ensures ParseLabels(Labels(ls)) == Some(ls)
  {
    if ls == [] {
      assert Labels(ls) == "{}";
    } else {
      PairsRoundTrip(ls);
      assert Labels(ls)[1..] == Join(ls) + "}";
      assert |Render(ls[0])| >= 3 && |Join(ls)| >= 3;
      assert |Labels(ls)| >= 5;
    }
  }
}
