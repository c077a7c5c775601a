/**
  `sanitizeInput` of the Node server (server/server.js): three global regex
  deletions, a cut to 2000 characters and a trim. Each regex `replace` is written
  out as a left-to-right scan that tries to match at every position, deletes a
  match and resumes after it, as `String.prototype.replace` with a `/g` regex does.
*/
module Sanitizer {
  import opened Wrappers
  import opened Js
  import opened Strings

  const MaxLength: nat := 2000

  /**
    ASCII upper-casing. For the all-ASCII patterns used here this is exactly the
    case-insensitive (`/i`, non-Unicode) comparison: JavaScript never folds a
    non-ASCII character onto an ASCII one.
  */
  function AsciiUpper(c: char): char
  {
    if 'a' <= c <= 'z' then (c as int - 32) as char else c
  }

  /** `\w` */
  predicate IsWordChar(c: char)
  {
    'a' <= c <= 'z' || 'A' <= c <= 'Z' || '0' <= c <= '9' || c == '_'
  }

  /** `[;&|`$()]` */
  predicate IsShellChar(c: char)
  {
    c == ';' || c == '&' || c == '|' || c == '`' || c == '$' || c == '(' || c == ')'
  }

  predicate NotShellChar(c: char)
  {
    !IsShellChar(c)
  }

  /** `pat` occurs at index `j` of `s`, ignoring ASCII case. */
  predicate MatchesAt(s: string, pat: string, j: nat)
  {
    j + |pat| <= |s| && forall k :: 0 <= k < |pat| ==> AsciiUpper(s[j + k]) == AsciiUpper(pat[k])
  }

  /** The first index at or after `i` where `pat` occurs, ignoring ASCII case. */
  function FindFrom(s: string, pat: string, i: nat): (r: Option<nat>)
    requires i <= |s|
    ensures r.Some? ==> i <= r.value && MatchesAt(s, pat, r.value)
    ensures r.Some? ==> forall j :: i <= j < r.value ==> !MatchesAt(s, pat, j)
    ensures r.None? ==> forall j :: i <= j ==> !MatchesAt(s, pat, j)
    decreases |s| - i
  {
    if i + |pat| > |s| then None
    else if MatchesAt(s, pat, i) then Some(i)
    else FindFrom(s, pat, i + 1)
  }

  const ScriptOpen: string := "<script"
  const ScriptClose: string := "</script>"

  /**
    `/<script\b[^<]*(?:(?!<\/script>)<[^<]*)*<\/script>/i` matches at the start of
    `s` and ends just after a closing tag at index `q`: an opening `<script` not
    followed by a word character, then any text in which no `<` starts a closing
    tag, then the closing tag.
  */
  predicate ScriptBlockMatch(s: string, q: nat)
  {
    && MatchesAt(s, ScriptOpen, 0)
    && (|s| == |ScriptOpen| || !IsWordChar(s[|ScriptOpen|]))
    && |ScriptOpen| <= q && MatchesAt(s, ScriptClose, q)
    && forall j :: |ScriptOpen| <= j < q ==> !MatchesAt(s, ScriptClose, j)
  }

  /** The length of the script-block match at the start of `s`, if the regex matches there. */
  function ScriptBlockAt(s: string): (r: Option<nat>)
    ensures r.Some? <==> exists q: nat :: ScriptBlockMatch(s, q)
    ensures forall q: nat :: ScriptBlockMatch(s, q) ==> r == Some(q + |ScriptClose|)
    ensures r.Some? ==> 0 < r.value <= |s|
  {
    if MatchesAt(s, ScriptOpen, 0) && (|s| == |ScriptOpen| || !IsWordChar(s[|ScriptOpen|])) then
      match FindFrom(s, ScriptClose, |ScriptOpen|)
      case Some(q) =>
        assert ScriptBlockMatch(s, q);
        Some(q + |ScriptClose|)
      case None => None
    else None
  }

  /**
    `/on\w+\s*=/i` matches at the start of `s` with `k` word characters after "on"
    and `w` whitespace characters before the `=`.
  */
  predicate HandlerMatch(s: string, k: nat, w: nat)
  {
    && 2 + k + w < |s|
    && AsciiUpper(s[0]) == 'O' && AsciiUpper(s[1]) == 'N'
    && 1 <= k && (forall i :: 2 <= i < 2 + k ==> IsWordChar(s[i]))
    && (forall i :: 2 + k <= i < 2 + k + w ==> IsJsSpace(s[i]))
    && s[2 + k + w] == '='
  }

  /**
    The length of the event-handler match at the start of `s`. The greedy `\w+`
    and `\s*` never need to give characters back: a shorter run would leave a word
    or space character where `\s` or `=` is required.
  */
  function HandlerAt(s: string): (r: Option<nat>)
    ensures r.Some? <==> exists k: nat, w: nat :: HandlerMatch(s, k, w)
    ensures forall k: nat, w: nat :: HandlerMatch(s, k, w) ==> r == Some(3 + k + w)
    ensures r.Some? ==> 0 < r.value <= |s|
  {
    if |s| >= 2 && AsciiUpper(s[0]) == 'O' && AsciiUpper(s[1]) == 'N' then
      var k := RunLength(s, 2, IsWordChar);
      var w := RunLength(s, 2 + k, IsJsSpace);
      HandlerDecided(s, k, w);
      if 1 <= k && 2 + k + w < |s| && s[2 + k + w] == '=' then Some(3 + k + w) else None
    else None
  }

  /** With the maximal runs, the regex matches exactly when they end in `=`. */
  lemma HandlerDecided(s: string, k: nat, w: nat)
    requires |s| >= 2 && k == RunLength(s, 2, IsWordChar)
    requires 2 + k <= |s| && w == RunLength(s, 2 + k, IsJsSpace)
    requires AsciiUpper(s[0]) == 'O' && AsciiUpper(s[1]) == 'N'
    ensures (exists k': nat, w': nat :: HandlerMatch(s, k', w')) <==> 1 <= k && 2 + k + w < |s| && s[2 + k + w] == '='
    ensures forall k': nat, w': nat :: HandlerMatch(s, k', w') ==> k' == k && w' == w
  {
    HandlerUnique(s, k, w);
    if 1 <= k && 2 + k + w < |s| && s[2 + k + w] == '=' {
      assert HandlerMatch(s, k, w);
    }
  }

  /** Any decomposition of a handler match uses the maximal runs. */
  lemma HandlerUnique(s: string, k: nat, w: nat)
    requires |s| >= 2 && k == RunLength(s, 2, IsWordChar)
    requires 2 + k <= |s| && w == RunLength(s, 2 + k, IsJsSpace)
    ensures forall k': nat, w': nat :: HandlerMatch(s, k', w') ==> k' == k && w' == w
  {
    forall k': nat, w': nat | HandlerMatch(s, k', w')
      ensures k' == k && w' == w
    {
      // The character after the word run and the one after the space run
      // end both runs, in the match and in the maximal runs alike.
      assert !IsWordChar(s[2 + k']);
      assert !IsJsSpace(s[2 + k' + w']);
    }
  }

  /**
    `s.replace(re, '')` for a global regex whose match at the start of a string
    has the length `matchAt` reports. After a non-empty match the scan resumes
    right after it; otherwise the character stays and the scan moves on by one.
  */
  function DeleteMatches(s: string, matchAt: string -> Option<nat>): string
    decreases |s|
  {
    if s == [] then []
    else match matchAt(s)
      case Some(n) =>
        if 0 < n <= |s| then DeleteMatches(s[n..], matchAt)
        else [s[0]] + DeleteMatches(s[1..], matchAt)
      case None => [s[0]] + DeleteMatches(s[1..], matchAt)
  }

  lemma {:induction false} DeleteMatchesIsSubsequence(s: string, matchAt: string -> Option<nat>)
    ensures IsSubsequence(DeleteMatches(s, matchAt), s)
    decreases |s|
  {
    if s != [] {
      var m := matchAt(s);
      if m.Some? && 0 < m.value <= |s| {
        DeleteMatchesIsSubsequence(s[m.value..], matchAt);
        SubsequenceOfSuffix(DeleteMatches(s[m.value..], matchAt), s, m.value);
      } else {
        DeleteMatchesIsSubsequence(s[1..], matchAt);
        var rest := DeleteMatches(s[1..], matchAt);
        assert ([s[0]] + rest)[1..] == rest;
      }
    }
  }

  /**
    The scan keeps every character before the leftmost match, drops the match,
    and carries on right after it.
  */
  lemma {:induction false} DeleteLeftmost(s: string, matchAt: string -> Option<nat>, i: nat, n: nat)
    requires i <= |s|
    requires forall j :: 0 <= j < i ==> matchAt(s[j..]).None?
    requires matchAt(s[i..]) == Some(n) && 0 < n <= |s| - i
    ensures DeleteMatches(s, matchAt) == s[..i] + DeleteMatches(s[i + n..], matchAt)
    decreases i
  {
    assert s[0..] == s;
    if i > 0 {
      forall j | 0 <= j < i - 1
        ensures matchAt(s[1..][j..]).None?
      {
        assert s[1..][j..] == s[j + 1..];
      }
      assert s[1..][i - 1..] == s[i..];
      DeleteLeftmost(s[1..], matchAt, i - 1, n);
      assert s[1..][i - 1 + n..] == s[i + n..];
      assert s[..i] == [s[0]] + s[1..][..i - 1];
    }
  }

  /** A prefix in which no match starts is kept, and the match right after it is deleted. */
  lemma DeleteAfterPrefix(pre: string, rest: string, matchAt: string -> Option<nat>, n: nat)
    requires forall j :: 0 <= j < |pre| ==> matchAt((pre + rest)[j..]).None?
    requires matchAt(rest) == Some(n) && 0 < n <= |rest|
    ensures DeleteMatches(pre + rest, matchAt) == pre + DeleteMatches(rest[n..], matchAt)
  {
    var s := pre + rest;
    assert s[..|pre|] == pre;
    assert s[|pre|..] == rest;
    assert s[|pre| + n..] == rest[n..];
    DeleteLeftmost(s, matchAt, |pre|, n);
  }

  function Min(a: nat, b: nat): nat
  {
    if a <= b then a else b
  }

  /** The deletion passes of lines 40, 41 and 44, in that order. */
  function DeletionPasses(s: string): string
  {
    var noScripts := DeleteMatches(s, ScriptBlockAt);
    var noHandlers := DeleteMatches(noScripts, HandlerAt);
    Filter(noHandlers, NotShellChar)
  }

  /**
    `sanitizeInput(text)`: a non-string yields the empty string; a string loses its
    script blocks, then its `on…=` patterns, then its shell metacharacters, is cut
    to its first 2000 characters and trimmed.
  */
  function SanitizeInput(text: Value): (r: string)
    ensures !text.Str? ==> r == ""
    ensures |r| <= MaxLength
    ensures forall i :: 0 <= i < |r| ==> !IsShellChar(r[i])
    ensures r != [] ==> !IsJsSpace(r[0]) && !IsJsSpace(r[|r| - 1])
    ensures text.Str? ==> IsSubsequence(r, text.s)
  {
    match text
    case Str(s) =>
      var cleaned := DeletionPasses(s);
      var r := CutAndTrim(cleaned);
      DeletionPassesIsSubsequence(s);
      SubsequenceTrans(r, cleaned, s);
      assert forall i :: 0 <= i < |r| ==> r[i] in cleaned;
      r
    case _ => ""
  }

  /** Lines 47-49: the first 2000 characters, trimmed; only characters of the input remain. */
  function CutAndTrim(cleaned: string): (r: string)
    ensures |r| <= MaxLength
    ensures r != [] ==> !IsJsSpace(r[0]) && !IsJsSpace(r[|r| - 1])
    ensures IsTrimOf(r, cleaned[..Min(|cleaned|, MaxLength)], IsJsSpace)
    ensures IsSubsequence(r, cleaned)
    ensures forall i :: 0 <= i < |r| ==> r[i] in cleaned
  {
    var cut := cleaned[..Min(|cleaned|, MaxLength)];
    var r := JsTrim(cut);
    TrimIsTrimOf(cut, IsJsSpace);
    PrefixIsSubsequence(cleaned, Min(|cleaned|, MaxLength));
    TrimIsSubsequence(cut, IsJsSpace);
    SubsequenceTrans(r, cut, cleaned);
    SubsequenceElements(r, cleaned);
    r
  }

  lemma DeletionPassesIsSubsequence(s: string)
    ensures IsSubsequence(DeletionPasses(s), s)
  {
    var noScripts := DeleteMatches(s, ScriptBlockAt);
    var noHandlers := DeleteMatches(noScripts, HandlerAt);
    DeleteMatchesIsSubsequence(s, ScriptBlockAt);
    DeleteMatchesIsSubsequence(noScripts, HandlerAt);
    FilterIsSubsequence(noHandlers, NotShellChar);
    SubsequenceTrans(noHandlers, noScripts, s);
    SubsequenceTrans(Filter(noHandlers, NotShellChar), noHandlers, s);
  }
}

/**
  What the sanitizer does NOT guarantee. Each regex pass runs once, left to
  right, and the shell-character pass runs last, so deleting a shell character
  can join the pieces of a pattern that the earlier passes did not see.
*/
module SanitizerLimits {
  import opened Wrappers
  import opened Js
  import opened Strings
  import opened Sanitizer

  /** ASCII letters other than `o` and `O`: they start no pattern and are never deleted. */
  predicate InertLetters(w: string)
  {
    forall i :: 0 <= i < |w| ==> ('a' <= w[i] <= 'z' || 'A' <= w[i] <= 'Z') && w[i] != 'o' && w[i] != 'O'
  }

  lemma {:induction false} DeleteMatchesUnchanged(s: string, matchAt: string -> Option<nat>)
    requires forall i :: 0 <= i < |s| ==> matchAt(s[i..]).None?
    ensures DeleteMatches(s, matchAt) == s
  {
    if s != [] {
      assert s[0..] == s;
      forall i | 0 <= i < |s[1..]|
        ensures matchAt(s[1..][i..]).None?
      {
        assert s[1..][i..] == s[i + 1..];
      }
      DeleteMatchesUnchanged(s[1..], matchAt);
    }
  }

  lemma MatchesAtSuffix(s: string, pat: string, i: nat)
    requires i <= |s|
    ensures MatchesAt(s[i..], pat, 0) <==> MatchesAt(s, pat, i)
  {
    if MatchesAt(s, pat, i) {
      forall k | 0 <= k < |pat|
        ensures AsciiUpper(s[i..][k]) == AsciiUpper(pat[k])
      {
        assert s[i..][k] == s[i + k];
      }
    }
    if MatchesAt(s[i..], pat, 0) {
      forall k | 0 <= k < |pat|
        ensures AsciiUpper(s[i + k]) == AsciiUpper(pat[k])
      {
        assert s[i..][0 + k] == s[i + k];
      }
    }
  }

  lemma HandlerStart(t: string)
    ensures HandlerAt(t).Some? ==> |t| >= 3 && AsciiUpper(t[0]) == 'O' && IsWordChar(t[2])
  {
  }

  /** With no opening tag anywhere, the script pass changes nothing. */
  lemma NoScriptBlocks(s: string)
    requires forall i :: 0 <= i < |s| ==> !MatchesAt(s, ScriptOpen, i)
    ensures DeleteMatches(s, ScriptBlockAt) == s
  {
    forall i | 0 <= i < |s|
      ensures ScriptBlockAt(s[i..]).None?
    {
      MatchesAtSuffix(s, ScriptOpen, i);
    }
    DeleteMatchesUnchanged(s, ScriptBlockAt);
  }

  /** With no `o`/`O` followed by a character and a word character, the handler pass changes nothing. */
  lemma NoHandlers(s: string)
    requires forall i :: 0 <= i < |s| && AsciiUpper(s[i]) == 'O' ==> !(i + 2 < |s| && IsWordChar(s[i + 2]))
    ensures DeleteMatches(s, HandlerAt) == s
  {
    forall i | 0 <= i < |s|
      ensures HandlerAt(s[i..]).None?
    {
      HandlerStart(s[i..]);
      assert s[i..][0] == s[i];
      if i + 2 < |s| {
        assert s[i..][2] == s[i + 2];
      }
    }
    DeleteMatchesUnchanged(s, HandlerAt);
  }

  /** The shell pass deletes the one shell character between two clean strings. */
  lemma DropOneShellChar(a: string, c: char, b: string)
    requires AllSatisfy(a, NotShellChar) && AllSatisfy(b, NotShellChar) && IsShellChar(c)
    ensures Filter(a + [c] + b, NotShellChar) == a + b
  {
    assert Filter([c], NotShellChar) == [] by {
      assert [c][1..] == [];
    }
    FilterConcat(a, [c], NotShellChar);
    FilterKeepsAll(a, NotShellChar);
    assert Filter(a + [c], NotShellChar) == a;
    FilterConcat(a + [c], b, NotShellChar);
    FilterKeepsAll(b, NotShellChar);
  }

  lemma InertLettersSurvive(w: string)
    requires InertLetters(w)
    ensures Filter(w, NotShellChar) == w
  {
    FilterKeepsAll(w, NotShellChar);
  }

  lemma HandlerInputNoScripts(w: string, s: string)
    requires InertLetters(w) && s == "on" + ";" + w + "="
    ensures DeleteMatches(s, ScriptBlockAt) == s
  {
    forall i | 0 <= i < |s|
      ensures !MatchesAt(s, ScriptOpen, i)
    {
      if 3 <= i < 3 + |w| {
        assert s[i] == w[i - 3];
      }
      assert AsciiUpper(s[i + 0]) != AsciiUpper(ScriptOpen[0]);
    }
    NoScriptBlocks(s);
  }

  lemma HandlerInputNoHandlers(w: string, s: string)
    requires InertLetters(w) && s == "on" + ";" + w + "="
    ensures DeleteMatches(s, HandlerAt) == s
  {
    forall i | 0 <= i < |s|
      ensures AsciiUpper(s[i]) == 'O' ==> !(i + 2 < |s| && IsWordChar(s[i + 2]))
    {
      if 3 <= i < 3 + |w| {
        assert s[i] == w[i - 3];
      }
    }
    NoHandlers(s);
  }

  lemma HandlerInputFilter(w: string, s: string)
    requires InertLetters(w) && s == "on" + ";" + w + "="
    ensures Filter(s, NotShellChar) == "on" + w + "="
  {
    assert AllSatisfy(w, NotShellChar);
    ConcatAllSatisfy(w, "=", NotShellChar);
    assert s == "on" + [';'] + (w + "=");
    DropOneShellChar("on", ';', w + "=");
  }

  lemma HandlerInputPasses(w: string, s: string)
    requires InertLetters(w) && s == "on" + ";" + w + "="
    ensures DeletionPasses(s) == "on" + w + "="
  {
    HandlerInputNoScripts(w, s);
    HandlerInputNoHandlers(w, s);
    HandlerInputFilter(w, s);
  }

  lemma HandlerOutputMatches(w: string, out: string)
    requires w != [] && InertLetters(w) && out == "on" + w + "="
    ensures HandlerAt(out) == Some(|w| + 3)
  {
    assert forall i :: 2 <= i < 2 + |w| ==> out[i] == w[i - 2];
    assert HandlerMatch(out, |w|, 0);
  }

  /** A string that starts and ends with a non-space and fits the cut is left alone by lines 47-49. */
  lemma CutAndTrimKeep(out: string)
    requires out != [] && |out| <= MaxLength
    requires !IsJsSpace(out[0]) && !IsJsSpace(out[|out| - 1])
    ensures CutAndTrim(out) == out
  {
    assert out[..Min(|out|, MaxLength)] == out;
    assert TrimStart(out, IsJsSpace) == out;
  }

  /**
    Text with nothing to remove comes back unchanged: no `<script` opening, no
    `o` followed two characters later by a word character, no shell
    metacharacter, at most 2000 characters and no whitespace at either end.
  */
  lemma HarmlessTextUnchanged(s: string)
    requires forall i :: 0 <= i < |s| ==> !MatchesAt(s, ScriptOpen, i)
    requires forall i :: 0 <= i < |s| && AsciiUpper(s[i]) == 'O' ==> !(i + 2 < |s| && IsWordChar(s[i + 2]))
    requires forall i :: 0 <= i < |s| ==> NotShellChar(s[i])
    requires |s| <= MaxLength
    requires s != [] ==> !IsJsSpace(s[0]) && !IsJsSpace(s[|s| - 1])
    ensures SanitizeInput(Str(s)) == s
  {
    NoScriptBlocks(s);
    NoHandlers(s);
    FilterKeepsAll(s, NotShellChar);
    assert DeletionPasses(s) == s;
    if s != [] {
      CutAndTrimKeep(s);
    }
  }

  /**
    `on;` + letters + `=` comes out as an inline event-handler pattern that the
    handler pass would have removed: the output of line 49 can still match the
    regex of line 41.
  */
  lemma HandlerSurvives(w: string)
    requires w != [] && |w| <= 1000 && InertLetters(w)
    ensures SanitizeInput(Str("on;" + w + "=")) == "on" + w + "="
    ensures HandlerAt("on" + w + "=") == Some(|w| + 3)
  {
    var out := "on" + w + "=";
    assert "on;" + w + "=" == "on" + ";" + w + "=";
    HandlerInputPasses(w, "on;" + w + "=");
    CutAndTrimKeep(out);
    HandlerOutputMatches(w, out);
  }

  lemma ScriptInputNoScripts(w: string, s: string)
    requires InertLetters(w) && s == "<scr" + ";" + "ipt>" + w + "</script>"
    ensures DeleteMatches(s, ScriptBlockAt) == s
  {
    forall i | 0 <= i < |s|
      ensures !MatchesAt(s, ScriptOpen, i)
    {
      if i == 0 {
        assert AsciiUpper(s[0 + 4]) != AsciiUpper(ScriptOpen[4]);
      } else if i == 9 + |w| {
        assert s[i + 1] == '/';
        assert AsciiUpper(s[i + 1]) != AsciiUpper(ScriptOpen[1]);
      } else {
        if 9 <= i < 9 + |w| {
          assert s[i] == w[i - 9];
        } else if i > 9 + |w| {
          assert s[i] == "</script>"[i - 9 - |w|];
        }
        assert AsciiUpper(s[i + 0]) != AsciiUpper(ScriptOpen[0]);
      }
    }
    NoScriptBlocks(s);
  }

  lemma ScriptInputNoHandlers(w: string, s: string)
    requires InertLetters(w) && s == "<scr" + ";" + "ipt>" + w + "</script>"
    ensures DeleteMatches(s, HandlerAt) == s
  {
    forall i | 0 <= i < |s|
      ensures AsciiUpper(s[i]) != 'O'
    {
      if 9 <= i < 9 + |w| {
        assert s[i] == w[i - 9];
      } else if i >= 9 + |w| {
        assert s[i] == "</script>"[i - 9 - |w|];
      } else {
        assert s[i] == "<scr;ipt>"[i];
      }
    }
    NoHandlers(s);
  }

  lemma ScriptInputFilter(w: string, s: string)
    requires InertLetters(w) && s == "<scr" + ";" + "ipt>" + w + "</script>"
    ensures Filter(s, NotShellChar) == "<script>" + w + "</script>"
  {
    var tail := "ipt>" + w + "</script>";
    assert AllSatisfy(w, NotShellChar);
    assert AllSatisfy("ipt>", NotShellChar);
    assert AllSatisfy("</script>", NotShellChar);
    ConcatAllSatisfy("ipt>", w, NotShellChar);
    ConcatAllSatisfy("ipt>" + w, "</script>", NotShellChar);
    assert s == "<scr" + [';'] + tail;
    DropOneShellChar("<scr", ';', tail);
    assert "<scr" + tail == "<script>" + w + "</script>";
  }

  lemma ScriptInputPasses(w: string, s: string)
    requires InertLetters(w) && s == "<scr" + ";" + "ipt>" + w + "</script>"
    ensures DeletionPasses(s) == "<script>" + w + "</script>"
  {
    ScriptInputNoScripts(w, s);
    ScriptInputNoHandlers(w, s);
    ScriptInputFilter(w, s);
  }

  lemma ScriptOutputMatches(w: string, out: string)
    requires InertLetters(w) && out == "<script>" + w + "</script>"
    ensures ScriptBlockMatch(out, |w| + 8)
    ensures ScriptBlockAt(out) == Some(|w| + 17)
  {
    assert MatchesAt(out, ScriptOpen, 0);
    assert out[7] == '>';
    var q := |w| + 8;
    assert MatchesAt(out, ScriptClose, q) by {
      assert out[q..] == ScriptClose;
    }
    forall j | 7 <= j < q
      ensures !MatchesAt(out, ScriptClose, j)
    {
      assert ScriptClose[0] == '<';
      if j > 7 {
        assert out[j] == w[j - 8];
      }
      assert AsciiUpper(out[j]) != '<';
    }
    assert ScriptBlockMatch(out, q);
  }

  /**
    `<scr;ipt>` + letters + `</script>` comes out as a whole script block that the
    script pass of line 40 would have removed.
  */
  lemma ScriptBlockSurvives(w: string)
    requires |w| <= 1000 && InertLetters(w)
    ensures SanitizeInput(Str("<scr;ipt>" + w + "</script>")) == "<script>" + w + "</script>"
    ensures ScriptBlockAt("<script>" + w + "</script>") == Some(|w| + 17)
  {
    var out := "<script>" + w + "</script>";
    assert "<scr;ipt>" + w + "</script>" == "<scr" + ";" + "ipt>" + w + "</script>";
    ScriptInputPasses(w, "<scr;ipt>" + w + "</script>");
    CutAndTrimKeep(out);
    ScriptOutputMatches(w, out);
  }

  /** The script regex only looks up to the end of its closing tag: text after it changes nothing. */
  lemma ScriptMatchExtends(core: string, post: string, q: nat)
    requires ScriptBlockMatch(core, q)
    ensures ScriptBlockMatch(core + post, q)
  {
    var s := core + post;
    MatchesAtPrefix(core, post, ScriptOpen, 0);
    MatchesAtPrefix(core, post, ScriptClose, q);
    forall j | |ScriptOpen| <= j < q
      ensures !MatchesAt(s, ScriptClose, j)
    {
      MatchesAtPrefix(core, post, ScriptClose, j);
    }
    assert s[|ScriptOpen|] == core[|ScriptOpen|];
  }

  lemma MatchesAtPrefix(core: string, post: string, pat: string, j: nat)
    requires j + |pat| <= |core|
    ensures MatchesAt(core + post, pat, j) == MatchesAt(core, pat, j)
  {
    assert forall i :: 0 <= i < |core| ==> (core + post)[i] == core[i];
  }

  /** No script block starts at any position of a `<`-free prefix. */
  lemma NoScriptInPrefix(pre: string, rest: string)
    requires forall i :: 0 <= i < |pre| ==> pre[i] != '<'
    ensures forall j :: 0 <= j < |pre| ==> ScriptBlockAt((pre + rest)[j..]).None?
  {
    forall j | 0 <= j < |pre|
      ensures ScriptBlockAt((pre + rest)[j..]).None?
    {
      assert (pre + rest)[j..][0] == pre[j];
      assert AsciiUpper((pre + rest)[j..][0]) != AsciiUpper(ScriptOpen[0]);
    }
  }

  /** A script block around letters is matched whole, whatever follows it. */
  lemma ScriptBlockAtStart(w: string, post: string)
    requires InertLetters(w)
    ensures ScriptBlockAt("<script>" + w + "</script>" + post) == Some(|w| + 17)
  {
    var block := "<script>" + w + "</script>";
    ScriptOutputMatches(w, block);
    ScriptMatchExtends(block, post, |w| + 8);
  }

  /**
    The script pass of line 40 removes a whole script block around letters,
    keeping the text before it when that text holds no `<`.
  */
  lemma ScriptBlockDeleted(pre: string, w: string, post: string)
    requires forall i :: 0 <= i < |pre| ==> pre[i] != '<'
    requires InertLetters(w)
    ensures DeleteMatches(pre + ("<script>" + w + "</script>" + post), ScriptBlockAt) ==
      pre + DeleteMatches(post, ScriptBlockAt)
  {
    var rest := "<script>" + w + "</script>" + post;
    ScriptBlockAtStart(w, post);
    NoScriptInPrefix(pre, rest);
    DeleteAfterPrefix(pre, rest, ScriptBlockAt, |w| + 17);
    assert rest[|w| + 17..] == post;
  }

  /** Text that is only a script block around letters sanitizes to nothing. */
  lemma ScriptBlockRemoved(w: string)
    requires InertLetters(w)
    ensures SanitizeInput(Str("<script>" + w + "</script>")) == ""
  {
    var s := "<script>" + w + "</script>";
    ScriptBlockDeleted("", w, "");
    assert "" + (s + "") == s;
    var noScripts := DeleteMatches(s, ScriptBlockAt);
    assert noScripts == "";
    assert DeleteMatches(noScripts, HandlerAt) == "";
    assert DeletionPasses(s) == "";
  }
}
