// The string operations the parsers rely on, over ASCII text.
module Text {
  import opened Wrappers

  // char::is_whitespace on ASCII: space and the control characters 9 to 13.
  predicate IsSpace(c: char) {
    c == ' ' || 9 <= c as int <= 13
  }

  function TrimStart(s: string): string {
    if s != "" && IsSpace(s[0]) then TrimStart(s[1..]) else s
  }

  function TrimEnd(s: string): string {
    if s != "" && IsSpace(s[|s| - 1]) then TrimEnd(s[..|s| - 1]) else s
  }

  function Trim(s: string): string {
    TrimEnd(TrimStart(s))
  }

  // str::trim_end_matches with a single character.
  function TrimEndMatches(s: string, c: char): string {
    if s != "" && s[|s| - 1] == c then TrimEndMatches(s[..|s| - 1], c) else s
  }

  function LowerChar(c: char): char {
    if 'A' <= c <= 'Z' then (c as int + 32) as char else c
  }

  function Lower(s: string): string {
    seq(|s|, i requires 0 <= i < |s| => LowerChar(s[i]))
  }

  predicate Contains(s: string, part: string) {
    part <= s || (s != "" && Contains(s[1..], part))
  }

  lemma {:induction false} ContainsAt(s: string, i: nat, part: string)
    requires i + |part| <= |s| && s[i..i + |part|] == part
    ensures Contains(s, part)
  {
    if i == 0 {
      assert part <= s;
    } else {
      assert s[1..][i - 1..i - 1 + |part|] == part;
      ContainsAt(s[1..], i - 1, part);
    }
  }

  // What contains a text contains its parts.
  lemma {:induction false} ContainsLonger(s: string, part: string, longer: string, i: nat)
    requires i + |part| <= |longer| && longer[i..i + |part|] == part && Contains(s, longer)
    ensures Contains(s, part)
  {
    if longer <= s {
      assert s[i..i + |part|] == longer[i..i + |part|];
      ContainsAt(s, i, part);
    } else {
      ContainsLonger(s[1..], part, longer, i);
    }
  }

  lemma {:induction false} ContainsChars(s: string, part: string)
    requires Contains(s, part)
    ensures forall c :: c in part ==> c in s
  {
    if part <= s {
      assert forall i :: 0 <= i < |part| ==> part[i] == s[i];
    } else {
      ContainsChars(s[1..], part);
    }
  }

  predicate ContainsAny(s: string, parts: seq<string>) {
    exists p | p in parts :: Contains(s, p)
  }

  predicate StartsWith(s: string, prefix: string) {
    prefix <= s
  }

  predicate EndsWith(s: string, suffix: string) {
    |suffix| <= |s| && s[|s| - |suffix|..] == suffix
  }

  // str::strip_suffix followed by unwrap_or of the whole string.
  function StripSuffix(s: string, suffix: string): (t: string) {
    if EndsWith(s, suffix) then s[..|s| - |suffix|] else s
  }

  // Position of the first c, or the length when there is none.
  function IndexOf(s: string, c: char): (i: nat)
    ensures i <= |s|
  {
    if s == "" || s[0] == c then 0 else 1 + IndexOf(s[1..], c)
  }

  lemma {:induction false} IndexOfIsFirst(s: string, c: char)
    ensures forall j :: 0 <= j < IndexOf(s, c) ==> s[j] != c
    ensures IndexOf(s, c) < |s| ==> s[IndexOf(s, c)] == c
    ensures IndexOf(s, c) < |s| <==> c in s
  {
    if s != "" && s[0] != c {
      IndexOfIsFirst(s[1..], c);
      assert s == [s[0]] + s[1..];
      forall j | 0 <= j < IndexOf(s, c) ensures s[j] != c {
        if j > 0 { assert s[1..][j - 1] != c; }
      }
    }
  }

  // str::split_once: the text before and after the first c.
  function SplitOnce(s: string, c: char): Option<(string, string)> {
    var i := IndexOf(s, c);
    if i < |s| then Some((s[..i], s[i + 1..])) else None
  }

  // rsplit('.').next(): the text after the last dot.
  function LastLabel(s: string): string {
    var i := IndexOf(s, '.');
    if i < |s| then LastLabel(s[i + 1..]) else s
  }

  // str::lines: '\n' ends a line, a carriage return before it is dropped,
  // and a final empty piece is not a line.
  function Lines(data: string): seq<string> {
    if data == "" then []
    else
      var i := IndexOf(data, '\n');
      if i < |data| then [StripSuffix(data[..i], "\r")] + Lines(data[i + 1..]) else [data]
  }

  // split_whitespace().next().unwrap_or(value)
  function FirstToken(value: string): string {
    var t := TrimStart(value);
    if t == "" then value else TakeToken(t)
  }

  function TakeToken(s: string): string {
    if s == "" || IsSpace(s[0]) then "" else [s[0]] + TakeToken(s[1..])
  }

  lemma {:induction false} TrimStartShape(s: string)
    ensures var t := TrimStart(s); |t| <= |s| && t == s[|s| - |t|..] && (t != "" ==> !IsSpace(t[0]))
  {
    if s != "" && IsSpace(s[0]) { TrimStartShape(s[1..]); }
  }

  lemma {:induction false} TrimEndShape(s: string)
    ensures TrimEnd(s) <= s && (TrimEnd(s) != "" ==> !IsSpace(TrimEnd(s)[|TrimEnd(s)| - 1]))
  {
    if s != "" && IsSpace(s[|s| - 1]) { TrimEndShape(s[..|s| - 1]); }
  }

  lemma TrimShape(s: string)
    ensures var t := Trim(s); t != "" ==> !IsSpace(t[0]) && !IsSpace(t[|t| - 1])
  {
    TrimStartShape(s);
    TrimEndShape(TrimStart(s));
  }

  lemma TrimKeepsExactly(s: string)
    requires s != "" && !IsSpace(s[0])
    ensures Trim(s) == s <==> !IsSpace(s[|s| - 1])
  {
    TrimEndShape(s);
  }

  // Text that ends in a newline does not run into the text after it.
  lemma LinesConcat(a: string, b: string)
    requires a == "" || a[|a| - 1] == '\n'
    ensures Lines(a + b) == Lines(a) + Lines(b)
  {
    LinesOfJoined(a, b, a + b);
  }

  lemma {:induction false} LinesOfJoined(a: string, b: string, joined: string)
    requires a == "" || a[|a| - 1] == '\n'
    requires joined == a + b
    ensures Lines(joined) == Lines(a) + Lines(b)
    decreases |a|
  {
    if a == "" {
      assert joined == b;
    } else {
      var i := JoinedHead(a, b, joined);
      var line, rest, after := a[..i], a[i + 1..], joined[i + 1..];
      FirstLine(a, i, line, rest);
      FirstLine(joined, i, line, after);
      LinesOfJoined(rest, b, after);
      AppendAssociative([StripSuffix(line, "\r")], Lines(rest), Lines(b));
    }
  }

  // The first line of a text is the first line of the text continued.
  lemma JoinedHead(a: string, b: string, joined: string) returns (i: nat)
    requires a != "" && a[|a| - 1] == '\n' && joined == a + b
    ensures i < |a| && a[i] == '\n' && joined[i] == '\n'
    ensures forall j :: 0 <= j < i ==> a[j] != '\n' && joined[j] != '\n'
    ensures joined[..i] == a[..i] && joined[i + 1..] == a[i + 1..] + b
    ensures a[i + 1..] == "" || a[i + 1..][|a[i + 1..]| - 1] == '\n'
  {
    IndexOfIsFirst(a, '\n');
    i := IndexOf(a, '\n');
  }

  lemma AppendAssociative(a: seq<string>, b: seq<string>, c: seq<string>)
    ensures a + (b + c) == (a + b) + c
  {
  }

  lemma FirstLine(s: string, i: nat, line: string, rest: string)
    requires i < |s| && s[i] == '\n' && forall j :: 0 <= j < i ==> s[j] != '\n'
    requires s[..i] == line && s[i + 1..] == rest
    ensures Lines(s) == [StripSuffix(line, "\r")] + Lines(rest)
  {
    FirstUnique(s, i, '\n');
  }

  lemma FirstUnique(s: string, i: nat, c: char)
    requires i < |s| && s[i] == c && forall j :: 0 <= j < i ==> s[j] != c
    ensures IndexOf(s, c) == i
  {
    IndexOfIsFirst(s, c);
    var k := IndexOf(s, c);
    assert !(k < i) && !(i < k);
  }
}
