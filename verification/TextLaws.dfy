// What each string operation returns, in terms of characters and positions.
module TextLaws {
  import opened Text

  predicate White(c: char) {
    c in [' ', '\t', '\n', '\r'] || c as int == 11 || c as int == 12
  }

  predicate AllWhite(s: string) {
    forall i :: 0 <= i < |s| ==> White(s[i])
  }

  // A piece of s between two positions, with white space around it and none at its ends.
  ghost predicate Core(s: string, i: nat, j: nat, t: string) {
    && i <= j <= |s| && t == s[i..j] && AllWhite(s[..i]) && AllWhite(s[j..])
    && (t != "" ==> !White(t[0]) && !White(t[|t| - 1]))
  }

  lemma {:induction false} TrimStartExactly(s: string) returns (i: nat)
    ensures i <= |s| && TrimStart(s) == s[i..] && AllWhite(s[..i]) && (i < |s| ==> !White(s[i]))
  {
    i := 0;
    if s != "" && IsSpace(s[0]) {
      var k := TrimStartExactly(s[1..]);
      i := k + 1;
      assert s[..i] == [s[0]] + s[1..][..k] && s[i..] == s[1..][k..];
    }
  }

  lemma {:induction false} TrimEndExactly(s: string) returns (j: nat)
    ensures j <= |s| && TrimEnd(s) == s[..j] && AllWhite(s[j..]) && (j > 0 ==> !White(s[j - 1]))
  {
    j := |s|;
    if s != "" && IsSpace(s[|s| - 1]) {
      j := TrimEndExactly(s[..|s| - 1]);
      assert s[j..] == s[..|s| - 1][j..] + [s[|s| - 1]];
      assert s[..j] == s[..|s| - 1][..j];
    }
  }

  // Trimming returns the core of the text.
  lemma TrimExactly(s: string) returns (i: nat, j: nat)
    ensures Core(s, i, j, Trim(s))
  {
    i := TrimStartExactly(s);
    var k := TrimEndExactly(s[i..]);
    j := i + k;
    assert s[i..][..k] == s[i..j] && s[i..][k..] == s[j..];
  }

  // ASCII letters change case, nothing else changes.
  lemma LowerExactly(s: string, i: nat)
    requires i < |s|
    ensures |Lower(s)| == |s|
    ensures 'A' <= s[i] <= 'Z' ==> Lower(s)[i] as int == s[i] as int + 32
    ensures !('A' <= s[i] <= 'Z') ==> Lower(s)[i] == s[i]
  {
  }

  ghost predicate Occurs(s: string, part: string, i: nat) {
    i + |part| <= |s| && s[i..i + |part|] == part
  }

  lemma {:induction false} ContainsExactly(s: string, part: string)
    ensures Contains(s, part) <==> exists i: nat :: Occurs(s, part, i)
  {
    if part <= s {
      assert Occurs(s, part, 0);
    } else if s != "" {
      ContainsExactly(s[1..], part);
      if Contains(s[1..], part) {
        var i: nat :| Occurs(s[1..], part, i);
        assert s[1..][i..i + |part|] == s[i + 1..i + 1 + |part|];
        assert Occurs(s, part, i + 1);
      }
      forall i: nat | Occurs(s, part, i) ensures Contains(s, part) {
        ContainsAt(s, i, part);
      }
    }
  }

  // Lines end at a newline, lose one carriage return before it, and an empty rest is no line.
  lemma LinesExactly(line: string, rest: string)
    requires '\n' !in line
    ensures Lines("") == []
    ensures line != "" ==> Lines(line) == [line]
    ensures Lines((line + "\n") + rest) ==
            [if line != "" && line[|line| - 1] == '\r' then line[..|line| - 1] else line] + Lines(rest)
  {
    IndexOfIsFirst(line, '\n');
    var s := (line + "\n") + rest;
    assert forall j :: 0 <= j < |line| ==> s[j] == line[j];
    assert s[..|line|] == line && s[|line| + 1..] == rest;
    FirstLine(s, |line|, line, rest);
  }

  lemma {:induction false} TakeTokenExactly(s: string) returns (j: nat)
    ensures j <= |s| && TakeToken(s) == s[..j] && (forall k :: 0 <= k < j ==> !White(s[k])) && (j < |s| ==> White(s[j]))
  {
    j := 0;
    if s != "" && !IsSpace(s[0]) {
      var k := TakeTokenExactly(s[1..]);
      j := k + 1;
      assert s[..j] == [s[0]] + s[1..][..k];
      assert forall n :: 1 <= n < |s| ==> s[n] == s[1..][n - 1];
    }
  }

  // The first token is the first stretch free of white space.
  lemma FirstTokenExactly(s: string) returns (i: nat, j: nat)
    ensures AllWhite(s) ==> FirstToken(s) == s
    ensures !AllWhite(s) ==>
              && i < j <= |s| && FirstToken(s) == s[i..j] && AllWhite(s[..i])
              && (forall k :: i <= k < j ==> !White(s[k])) && (j < |s| ==> White(s[j]))
  {
    i := TrimStartExactly(s);
    var k := TakeTokenExactly(s[i..]);
    j := i + k;
    assert s[i..][..k] == s[i..j];
    if i == |s| {
      assert s[..i] == s;
    } else {
      assert !AllWhite(s);
    }
  }

  // The text before and after the first c.
  lemma SplitExactly(s: string, c: char)
    ensures SplitOnce(s, c).None? <==> c !in s
    ensures SplitOnce(s, c).Some? ==>
              var (k, v) := SplitOnce(s, c).value; s == k + [c] + v && c !in k
  {
    IndexOfIsFirst(s, c);
  }

  lemma {:induction false} LastLabelExactly(s: string) returns (i: nat)
    ensures i <= |s| && LastLabel(s) == s[i..] && '.' !in LastLabel(s) && (i > 0 ==> s[i - 1] == '.')
  {
    i := 0;
    IndexOfIsFirst(s, '.');
    var d := IndexOf(s, '.');
    if d < |s| {
      var k := LastLabelExactly(s[d + 1..]);
      i := d + 1 + k;
      assert s[d + 1..][k..] == s[i..];
      assert k > 0 ==> s[d + 1..][k - 1] == s[i - 1];
    }
  }

  lemma StripSuffixExactly(s: string, suffix: string)
    ensures StripSuffix(s + suffix, suffix) == s
    ensures (forall t: string :: s != t + suffix) ==> StripSuffix(s, suffix) == s
  {
    if EndsWith(s, suffix) {
      assert s == s[..|s| - |suffix|] + suffix;
    }
  }
}
