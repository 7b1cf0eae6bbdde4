/**
 * The answer formatter `renderMarkdown` (frontend-svelte/src/lib/utils/markdown.ts).
 * The DOM-based `escapeHtml` is the text escaping of HTML serialisation
 * (`&`, no-break space, `<`, `>`); each global `replace` is a left-to-right
 * scanner that, like the JavaScript regular expression engine, tries a match
 * at the current position, and on success continues after the match.
 */
module Markdown {
  import opened Text

  const Br := "<br>"

  /** The string starts with `<br>`, tested character by character. */
  predicate StartsWithBr(s: string) {
    |s| >= 4 && s[0] == '<' && s[1] == 'b' && s[2] == 'r' && s[3] == '>'
  }

  /** Characters of the markup the rewrite rules insert: `<br>`, `<strong>`, `</strong>`, `● `. */
  predicate IsMarkup(c: char) {
    c == '<' || c == 'b' || c == 'r' || c == '>' || c == 's' || c == 't' || c == 'o'
    || c == 'n' || c == 'g' || c == '/' || c == '●' || c == ' '
  }

  /** Characters of the entities `&amp;`, `&lt;`, `&gt;`, `&nbsp;`. */
  predicate IsEntityChar(c: char) {
    c == '&' || c == 'a' || c == 'm' || c == 'p' || c == ';' || c == 'l' || c == 't'
    || c == 'g' || c == 'n' || c == 'b' || c == 's'
  }

  /** The characters `escapeHtml` rewrites. */
  predicate IsSpecial(c: char) {
    c == '&' || c == '<' || c == '>' || c == '\U{00A0}'
  }

  /** The escape of one character. */
  function EscapeChar(c: char): (r: string)
    ensures '<' !in r && '>' !in r
    ensures forall x | x in r :: x == c || IsEntityChar(x)
    ensures !IsSpecial(c) ==> r == [c]
  {
    if c == '&' then "&amp;"
    else if c == '<' then "&lt;"
    else if c == '>' then "&gt;"
    else if c == '\U{00A0}' then "&nbsp;"
    else [c]
  }

  /** `escapeHtml`: the text content serialised as HTML. */
  function Escape(s: string): (r: string)
    ensures '<' !in r && '>' !in r
    ensures forall c | c in r :: c in s || IsEntityChar(c)
    ensures (forall i | 0 <= i < |s| :: !IsSpecial(s[i])) ==> r == s
  {
    if s == [] then []
    else EscapeChar(s[0]) + Escape(s[1..])
  }

  /** Reads the entities back: the partner of `Escape`. */
  function Unescape(r: string): string
    decreases |r|
  {
    if r == [] then []
    else if StartsWith(r, "&amp;") then "&" + Unescape(r[5..])
    else if StartsWith(r, "&lt;") then "<" + Unescape(r[4..])
    else if StartsWith(r, "&gt;") then ">" + Unescape(r[4..])
    else if StartsWith(r, "&nbsp;") then "\U{00A0}" + Unescape(r[6..])
    else [r[0]] + Unescape(r[1..])
  }

  /** Unescaping one escaped character in front of any text. */
  lemma UnescapeChar(c: char, rest: string)
    ensures Unescape(EscapeChar(c) + rest) == [c] + Unescape(rest)
  {
    var e := EscapeChar(c) + rest;
    if c == '&' {
      assert e[..5] == "&amp;" && e[5..] == rest;
    } else if c == '<' {
      assert e[..4] == "&lt;" && e[4..] == rest;
      assert !StartsWith(e, "&amp;") by { assert e[1] == 'l'; }
    } else if c == '>' {
      assert e[..4] == "&gt;" && e[4..] == rest;
      assert !StartsWith(e, "&amp;") by { assert e[1] == 'g'; }
      assert !StartsWith(e, "&lt;") by { assert e[1] == 'g'; }
    } else if c == '\U{00A0}' {
      assert e[..6] == "&nbsp;" && e[6..] == rest;
      assert !StartsWith(e, "&amp;") by { assert e[1] == 'n'; }
      assert !StartsWith(e, "&lt;") by { assert e[1] == 'n'; }
      assert !StartsWith(e, "&gt;") by { assert e[1] == 'n'; }
    } else {
      assert e[0] == c && e[1..] == rest;
      assert !StartsWith(e, "&amp;") && !StartsWith(e, "&lt;") by { assert e[0] != '&'; }
      assert !StartsWith(e, "&gt;") && !StartsWith(e, "&nbsp;") by { assert e[0] != '&'; }
    }
  }

  /** Escaping loses nothing: the escaped text reads back as the original. */
  lemma {:induction false} EscapeRoundTrip(s: string)
    ensures Unescape(Escape(s)) == s
  {
    if s != [] {
      EscapeRoundTrip(s[1..]);
      UnescapeChar(s[0], Escape(s[1..]));
    }
  }

  /** `replace(/\n/g, '<br>')`. */
  function Newlines(s: string): (r: string)
    ensures '\n' !in r
    ensures forall c | c in r :: c in s || IsMarkup(c)
    ensures '\n' !in s ==> r == s
  {
    if s == [] then []
    else (if s[0] == '\n' then Br else [s[0]]) + Newlines(s[1..])
  }

  /** The number of leading characters that are not `*`: the greedy `[^*]+`. */
  function StarFreeRun(s: string): (n: nat)
    ensures n <= |s|
    ensures forall i | 0 <= i < n :: s[i] != '*'
    ensures n < |s| ==> s[n] == '*'
  {
    if s == [] || s[0] == '*' then 0 else 1 + StarFreeRun(s[1..])
  }

  /**
   * The length of X when `s` starts with a match `**X**` of `\*\*([^*]+)\*\*`,
   * and 0 when no match starts here.
   */
  function BoldMatch(s: string): (n: nat)
    ensures n > 0 ==> 4 + n <= |s| && s[0] == '*' && s[1] == '*' && s[2 + n] == '*' && s[3 + n] == '*'
    ensures n > 0 ==> forall i | 2 <= i < 2 + n :: s[i] != '*'
    ensures s == [] || s[0] != '*' ==> n == 0
  {
    if |s| < 2 || s[0] != '*' || s[1] != '*' then 0
    else
      var n := StarFreeRun(s[2..]);
      if n >= 1 && 4 + n <= |s| && s[3 + n] == '*' then n else 0
  }

  /** The replacement of one match. */
  function Strong(x: string): (r: string)
    ensures forall c | c in r :: c in x || IsMarkup(c)
  {
    "<br><strong>" + x + "</strong><br>"
  }

  /** `replace(/\*\*([^*]+)\*\*​/g, '<br><strong>$1</strong><br>')`. */
  function Bold(s: string): (r: string)
    ensures forall c | c in r :: c in s || IsMarkup(c)
    ensures '*' !in s ==> r == s
    decreases |s|
  {
    if s == [] then []
    else
      var n := BoldMatch(s);
      if n > 0 then Strong(s[2..2 + n]) + Bold(s[4 + n..])
      else [s[0]] + Bold(s[1..])
  }

  /** Text before any asterisk passes through the bold rule untouched. */
  lemma {:induction false} BoldSkipsPlainText(pre: string, rest: string)
    requires '*' !in pre
    ensures Bold(pre + rest) == pre + Bold(rest)
  {
    if pre != [] {
      var s := pre + rest;
      assert s[0] == pre[0] && s[1..] == pre[1..] + rest;
      assert pre[0] != '*';
      assert Bold(s) == [s[0]] + Bold(s[1..]);
      BoldSkipsPlainText(pre[1..], rest);
      assert [pre[0]] + pre[1..] == pre;
    } else {
      assert pre + rest == rest;
    }
  }

  /** Each `**X**` with a non-empty, asterisk-free X becomes `<br><strong>X</strong><br>`. */
  lemma BoldSpan(x: string, post: string)
    requires x != [] && '*' !in x
    ensures Bold("**" + x + "**" + post) == Strong(x) + Bold(post)
  {
    var s := "**" + x + "**" + post;
    var n := |x|;
    assert s[0] == '*' && s[1] == '*';
    assert s[2..] == x + ("**" + post);
    StarFreeRunOf(x, "**" + post);
    assert StarFreeRun(s[2..]) == n;
    assert s[2..2 + n] == x && s[3 + n] == '*' && s[4 + n..] == post;
    assert BoldMatch(s) == n;
  }

  /** The star-free run of `x` followed by an asterisk is `x` itself. */
  lemma {:induction false} StarFreeRunOf(x: string, rest: string)
    requires '*' !in x && rest != [] && rest[0] == '*'
    ensures StarFreeRun(x + rest) == |x|
  {
    if x != [] {
      assert (x + rest)[1..] == x[1..] + rest;
      StarFreeRunOf(x[1..], rest);
    } else {
      assert x + rest == rest;
    }
  }

  /** `replace(/\*​/g, '●')`. */
  function Bullets(s: string): (r: string)
    ensures |r| == |s| && '*' !in r
    ensures forall c | c in r :: c in s || IsMarkup(c)
    ensures '*' !in s ==> r == s
    ensures forall i | 0 <= i < |s| :: r[i] == (if s[i] == '*' then '●' else s[i])
  {
    if s == [] then []
    else [if s[0] == '*' then '●' else s[0]] + Bullets(s[1..])
  }

  /** The number of leading `\s` characters: the greedy `\s*`. */
  function SpaceRun(s: string): (n: nat)
    ensures n <= |s|
    ensures forall i | 0 <= i < n :: IsJsSpace(s[i])
  {
    if s == [] || !IsJsSpace(s[0]) then 0 else 1 + SpaceRun(s[1..])
  }

  /** The end of a `●\s*<br>\s*` match at the start of `s`, or 0 when none starts there. */
  function BulletJoinEnd(s: string): (e: nat)
    ensures e == 0 || 5 <= e <= |s|
  {
    if s == [] || s[0] != '●' || !StartsWithBr(s[1 + SpaceRun(s[1..])..]) then 0
    else 5 + SpaceRun(s[1..]) + SpaceRun(s[5 + SpaceRun(s[1..])..])
  }

  /** `replace(/●\s*<br>\s*​/g, '● ')`: a bullet swallows the line break after it. */
  function BulletJoin(s: string): (r: string)
    ensures forall c | c in r :: c in s || IsMarkup(c)
    ensures '●' !in s ==> r == s
    decreases |s|
  {
    if s == [] then []
    else if BulletJoinEnd(s) > 0 then "● " + BulletJoin(s[BulletJoinEnd(s)..])
    else [s[0]] + BulletJoin(s[1..])
  }

  /** The greedy `\s*` stops exactly at the end of a whitespace run. */
  lemma {:induction false} SpaceRunOf(w: string, x: string)
    requires forall i | 0 <= i < |w| :: IsJsSpace(w[i])
    requires x == [] || !IsJsSpace(x[0])
    ensures SpaceRun(w + x) == |w|
  {
    if w == [] {
      assert w + x == x;
    } else {
      assert (w + x)[1..] == w[1..] + x;
      SpaceRunOf(w[1..], x);
    }
  }

  /**
   * `●`, a whitespace run, `<br>` and a whitespace run become `● `, the rest
   * being rewritten from the first character the second run does not take.
   */
  lemma BulletJoinSpan(w1: string, w2: string, rest: string)
    requires forall i | 0 <= i < |w1| :: IsJsSpace(w1[i])
    requires forall i | 0 <= i < |w2| :: IsJsSpace(w2[i])
    requires rest == [] || !IsJsSpace(rest[0])
    ensures BulletJoin("●" + (w1 + ("<br>" + (w2 + rest)))) == "● " + BulletJoin(rest)
  {
    var after := w2 + rest;
    var tail := "<br>" + after;
    var s := "●" + (w1 + tail);
    BulletJoinEndOf(w1, w2, rest);
    assert s[5 + |w1| + |w2|..] == rest by {
      assert s[5 + |w1|..] == after;
    }
    BulletJoinMatch(s, rest);
  }

  /** Where the match of `●`, a whitespace run, `<br>` and a whitespace run ends. */
  lemma BulletJoinEndOf(w1: string, w2: string, rest: string)
    requires forall i | 0 <= i < |w1| :: IsJsSpace(w1[i])
    requires forall i | 0 <= i < |w2| :: IsJsSpace(w2[i])
    requires rest == [] || !IsJsSpace(rest[0])
    ensures BulletJoinEnd("●" + (w1 + ("<br>" + (w2 + rest)))) == 5 + |w1| + |w2|
  {
    var after := w2 + rest;
    var tail := "<br>" + after;
    var s := "●" + (w1 + tail);
    assert s[1..] == w1 + tail;
    SpaceRunOf(w1, tail);
    assert s[1 + |w1|..] == tail;
    assert StartsWithBr(tail);
    assert s[5 + |w1|..] == after;
    SpaceRunOf(w2, rest);
  }

  /** A text where a bullet join matches is `● ` and the join of what follows the match. */
  lemma BulletJoinMatch(s: string, rest: string)
    requires BulletJoinEnd(s) > 0 && s[BulletJoinEnd(s)..] == rest
    ensures BulletJoin(s) == "● " + BulletJoin(rest)
  {
  }

  /** A character other than `●` is copied by the bullet join. */
  lemma BulletJoinCopies(c: char, rest: string)
    requires c != '●'
    ensures BulletJoin([c] + rest) == [c] + BulletJoin(rest)
  {
    assert ([c] + rest)[1..] == rest;
  }

  /** `x● ` with `x` other than `>` gets a blank line before the bullet. */
  lemma BulletBreakSpan(c: char, rest: string)
    requires c != '>'
    ensures BulletBreak([c] + "● " + rest) == [c] + "<br><br>● " + BulletBreak(rest)
  {
    var s := [c] + "● " + rest;
    assert s[1..] == "● " + rest;
    assert !StartsWith(s[1..], "<br>● ") by {
      assert s[1..][0] == '●';
    }
    assert StartsWith(s[1..], "● ") by {
      assert s[1..][..2] == "● ";
    }
    assert s[3..] == rest;
  }

  /** `x<br>● ` with `x` other than `>`: the single break becomes a blank line. */
  lemma BulletBreakBrSpan(c: char, rest: string)
    requires c != '>'
    ensures BulletBreak([c] + "<br>● " + rest) == [c] + "<br><br>● " + BulletBreak(rest)
  {
    var s := [c] + "<br>● " + rest;
    assert s[1..] == "<br>● " + rest;
    assert s[1..][..6] == "<br>● ";
    assert s[7..] == rest;
  }

  /** A bullet right after `>` (the end of a tag) gets no blank line. */
  lemma BulletBreakAfterTag(rest: string)
    ensures BulletBreak(">● " + rest) == ">" + BulletBreak("● " + rest)
  {
    var s := ">● " + rest;
    assert s[1..] == "● " + rest;
  }

  /** `replace(/([^>])(<br>)?● /g, '$1<br><br>● ')`: a blank line before each bullet item. */
  function BulletBreak(s: string): (r: string)
    ensures forall c | c in r :: c in s || IsMarkup(c)
    ensures '●' !in s ==> r == s
    decreases |s|
  {
    if s == [] then []
    else if s[0] != '>' && StartsWith(s[1..], "<br>● ") then
      assert s[5] == s[1..][..6][4];
      [s[0]] + "<br><br>● " + BulletBreak(s[7..])
    else if s[0] != '>' && StartsWith(s[1..], "● ") then
      assert s[1] == s[1..][..2][0];
      [s[0]] + "<br><br>● " + BulletBreak(s[3..])
    else [s[0]] + BulletBreak(s[1..])
  }

  /** How many `<br>` the string starts with. */
  function BrRun(s: string): (k: nat)
    ensures 4 * k <= |s|
    ensures !StartsWithBr(s[4 * k..])
    ensures k >= 1 <==> StartsWithBr(s)
    decreases |s|
  {
    if StartsWithBr(s) then 1 + BrRun(s[4..]) else 0
  }

  /** `replace(/(<br>){3,}/g, '<br><br>')`. */
  function Collapse(s: string): (r: string)
    ensures s == [] <==> r == []
    ensures s != [] ==> r[0] == s[0]
    decreases |s|
  {
    if s == [] then []
    else if BrRun(s) >= 3 then Br + Br + Collapse(s[4 * BrRun(s)..])
    else [s[0]] + Collapse(s[1..])
  }

  /** No suffix starts with three `<br>`: no run of three or more anywhere. */
  predicate NoTripleBr(r: string) {
    forall i | 0 <= i <= |r| :: BrRun(r[i..]) < 3
  }

  /** The collapse only drops characters. */
  lemma {:induction false} CollapseKeepsChars(u: string)
    ensures forall c | c in Collapse(u) :: c in u
    decreases |u|
  {
    if u != [] {
      var k := BrRun(u);
      if k >= 3 {
        CollapseKeepsChars(u[4 * k..]);
      } else {
        CollapseKeepsChars(u[1..]);
      }
    }
  }

  /** Without a `<` there is nothing to collapse. */
  lemma {:induction false} CollapseWithoutLt(u: string)
    requires '<' !in u
    ensures Collapse(u) == u
    decreases |u|
  {
    if u != [] {
      BrRunNotLt(u);
      CollapseCopies(u);
      CollapseWithoutLt(u[1..]);
      assert [u[0]] + u[1..] == u;
    }
  }

  /** A `<br>` in front adds one to the run. */
  lemma BrRunCons(x: string)
    ensures BrRun(Br + x) == 1 + BrRun(x)
  {
    assert (Br + x)[..4] == Br && (Br + x)[4..] == x;
  }

  /** A string that does not start with `<` starts no run. */
  lemma BrRunNotLt(x: string)
    requires x == [] || x[0] != '<'
    ensures BrRun(x) == 0
  {
  }

  /** Away from a run of three, the collapse copies one character. */
  lemma CollapseCopies(u: string)
    requires u != [] && BrRun(u) < 3
    ensures Collapse(u) == [u[0]] + Collapse(u[1..])
  {
  }

  /** A run of one or two `<br>` is copied one `<br>` at a time. */
  lemma CollapseCopiesBr(u: string)
    requires 1 <= BrRun(u) < 3
    ensures Collapse(u) == Br + Collapse(u[4..])
    ensures BrRun(u[4..]) == BrRun(u) - 1
  {
    assert StartsWithBr(u);
    var x := u[4..];
    assert u == Br + x;
    BrRunCons(x);
    CollapseBrCons(x);
  }

  /** A `<br>` that does not open a run of three is copied. */
  lemma CollapseBrCons(x: string)
    requires BrRun(x) < 2
    ensures Collapse(Br + x) == Br + Collapse(x)
  {
    BrRunCons(x);
    BrChars(x);
    CollapseCopies(Br + x);
    CollapseCons('>', x);
    CollapseCons('r', ['>'] + x);
    CollapseCons('b', ['r'] + (['>'] + x));
    BrChars(Collapse(x));
  }

  /** `<br>` in front of a text, one character at a time. */
  lemma BrChars(x: string)
    ensures Br + x == ['<'] + (['b'] + (['r'] + (['>'] + x)))
    ensures (Br + x)[0] == '<' && (Br + x)[1..] == ['b'] + (['r'] + (['>'] + x))
  {
  }

  /** A character other than `<` is copied. */
  lemma CollapseCons(c: char, x: string)
    requires c != '<'
    ensures Collapse([c] + x) == [c] + Collapse(x)
  {
    BrRunNotLt([c] + x);
    CollapseCopies([c] + x);
    assert ([c] + x)[1..] == x;
  }

  /** A run of three or more becomes two `<br>` followed by the collapse of what follows the run. */
  lemma CollapseLongRun(u: string)
    requires BrRun(u) >= 3
    ensures var v := u[4 * BrRun(u)..];
      Collapse(u) == Br + (Br + Collapse(v)) && BrRun(v) == 0
  {
    var v := u[4 * BrRun(u)..];
    assert BrRun(v) == 0 by {
      assert !StartsWithBr(v);
    }
    assert Collapse(u) == Br + (Br + Collapse(v)) by {
      assert Collapse(u) == Br + Br + Collapse(v);
    }
  }

  /** The collapse keeps a leading run of one or two `<br>` and cuts a longer one to two. */
  lemma {:induction false} CollapseLeadingRun(u: string)
    ensures BrRun(Collapse(u)) == if BrRun(u) >= 2 then 2 else BrRun(u)
    decreases |u|
  {
    var k := BrRun(u);
    if u == [] {
    } else if k >= 3 {
      var v := u[4 * k..];
      CollapseLongRun(u);
      CollapseLeadingRun(v);
      BrRunCons(Br + Collapse(v));
      BrRunCons(Collapse(v));
    } else if k >= 1 {
      CollapseCopiesBr(u);
      CollapseLeadingRun(u[4..]);
      BrRunCons(Collapse(u[4..]));
    } else {
      CollapseNoRun(u);
    }
  }

  /** A string that does not start with `<br>` does not collapse to one that does. */
  lemma CollapseNoRun(u: string)
    requires u != [] && !StartsWithBr(u)
    ensures BrRun(Collapse(u)) == 0
  {
    CollapseCopies(u);
    if u[0] == '<' {
      if |u| >= 4 {
        CollapseNoRunLong(u);
      } else {
        CollapseShort(u);
      }
    }
  }

  /** The case of `CollapseNoRun` where the string starts with `<` but not with `<br>`. */
  lemma CollapseNoRunLong(u: string)
    requires |u| >= 4 && u[0] == '<' && !StartsWithBr(u)
    ensures BrRun(Collapse(u)) == 0
  {
    var r := Collapse(u);
    CollapseCopies(u);
    var t := u[1..];
    if t[0] == 'b' {
      BrRunNotLt(t);
      CollapseCopies(t);
      var t2 := t[1..];
      if t2[0] == 'r' {
        BrRunNotLt(t2);
        CollapseCopies(t2);
        var t3 := t2[1..];
        assert t3[0] != '>';
        assert r[3] == t3[0];
      } else {
        assert r[2] == t2[0];
      }
    } else {
      assert r[1] == t[0];
    }
  }

  /** A string shorter than `<br>` collapses to itself. */
  lemma {:induction false} CollapseShort(u: string)
    requires |u| < 4
    ensures Collapse(u) == u
    decreases |u|
  {
    if u != [] {
      CollapseCopies(u);
      CollapseShort(u[1..]);
    }
  }

  /** The suffixes of the collapse of a long run. */
  lemma LongRunSuffixes(u: string)
    requires BrRun(u) >= 3
    requires NoTripleBr(Collapse(u[4 * BrRun(u)..]))
    ensures NoTripleBr(Collapse(u))
  {
    var v := u[4 * BrRun(u)..];
    CollapseLongRun(u);
    CollapseLeadingRun(v);
    TwoBrSuffixes(Collapse(v));
  }

  /** Two `<br>` in front of a text that starts no run and holds no run of three. */
  lemma TwoBrSuffixes(x: string)
    requires BrRun(x) == 0 && NoTripleBr(x)
    ensures NoTripleBr(Br + (Br + x))
  {
    var r := Br + (Br + x);
    forall i | 0 <= i <= |r|
      ensures BrRun(r[i..]) < 3
    {
      if i < 8 {
        PrefixSuffixes(x, i);
      } else {
        ShiftedSuffixes(x, i);
      }
    }
  }

  /** The suffixes that start after the two leading `<br>` are those of the text. */
  lemma ShiftedSuffixes(x: string, i: nat)
    requires NoTripleBr(x) && 8 <= i <= 8 + |x|
    ensures BrRun((Br + (Br + x))[i..]) < 3
  {
    assert (Br + (Br + x))[i..] == x[i - 8..];
  }

  /** The suffixes that start inside the two leading `<br>`. */
  lemma PrefixSuffixes(x: string, i: nat)
    requires BrRun(x) == 0 && i < 8
    ensures BrRun((Br + (Br + x))[i..]) < 3
  {
    var r := Br + (Br + x);
    if i == 0 {
      BrRunCons(Br + x);
      BrRunCons(x);
    } else if i == 4 {
      assert r[4..] == Br + x;
      BrRunCons(x);
    } else {
      assert r[i] != '<';
      BrRunNotLt(r[i..]);
    }
  }

  /** After the collapse no suffix starts with three `<br>`: no run of three or more remains. */
  lemma {:induction false} CollapseLeavesNoTriple(u: string)
    ensures NoTripleBr(Collapse(u))
    decreases |u|
  {
    var r := Collapse(u);
    var k := BrRun(u);
    if u == [] {
    } else if k >= 3 {
      CollapseLeavesNoTriple(u[4 * k..]);
      LongRunSuffixes(u);
    } else {
      CollapseCopies(u);
      CollapseLeavesNoTriple(u[1..]);
      forall i | 0 <= i <= |r|
        ensures BrRun(r[i..]) < 3
      {
        if i == 0 {
          CollapseLeadingRun(u);
        } else {
          assert r[i..] == Collapse(u[1..])[i - 1..];
        }
      }
    }
  }

  /** The characters a `。` keeps directly after it: `[\s）」』\d●<]`. */
  predicate Excluded(c: char) {
    IsJsSpace(c) || c == '）' || c == '」' || c == '』' || ('0' <= c <= '9') || c == '●' || c == '<'
  }

  /**
   * `replace(/([。])([^\s）」』\d●<])/g, '$1<br>$2')` as written: the match
   * consumes the character after the `。`, so that character is never the
   * `。` of a next match.
   */
  function PeriodBreaksAsWritten(s: string): (r: string)
    ensures |r| >= |s|
    ensures s != [] ==> r[0] == s[0]
    ensures forall c | c in r :: c in s || IsMarkup(c)
    ensures '。' !in s ==> r == s
    decreases |s|
  {
    if s == [] then []
    else if s[0] == '。' && |s| >= 2 && !Excluded(s[1]) then "。<br>" + [s[1]] + PeriodBreaksAsWritten(s[2..])
    else [s[0]] + PeriodBreaksAsWritten(s[1..])
  }

  /** A `。` followed by `<br>` or an ordinary character after the rule as written. */
  predicate PeriodBrokenBefore(r: string, i: int)
    requires 0 <= i < |r|
  {
    5 <= i && r[i - 5..i] == "。<br>"
  }

  /** Every `。` of `r` followed by an ordinary character directly follows `。<br>`. */
  predicate OrdinaryAfterBreakOnly(r: string) {
    forall i | 0 <= i < |r| - 1 && r[i] == '。' && !Excluded(r[i + 1]) :: PeriodBrokenBefore(r, i)
  }

  /**
   * What the rule as written does promise: a `。` still followed by an
   * ordinary character is one a match consumed, so it directly follows `。<br>`.
   */
  lemma {:induction false} PeriodBreaksAsWrittenBreaks(s: string)
    ensures OrdinaryAfterBreakOnly(PeriodBreaksAsWritten(s))
    decreases |s|
  {
    if s != [] {
      if s[0] == '。' && |s| >= 2 && !Excluded(s[1]) {
        PeriodBreaksAsWrittenBreaks(s[2..]);
        BreakKeepsOrdinaryRule(s[1], PeriodBreaksAsWritten(s[2..]));
      } else {
        var rest := PeriodBreaksAsWritten(s[1..]);
        PeriodBreaksAsWrittenBreaks(s[1..]);
        assert s[1..] != [] ==> rest[0] == s[1];
        CopyKeepsOrdinaryRule(s[0], rest);
      }
    }
  }

  /** A match's replacement in front of text that keeps the rule keeps it too. */
  lemma BreakKeepsOrdinaryRule(c: char, rest: string)
    requires !Excluded(c) && OrdinaryAfterBreakOnly(rest)
    ensures OrdinaryAfterBreakOnly("。<br>" + [c] + rest)
  {
    var r := "。<br>" + [c] + rest;
    forall i | 0 <= i < |r| - 1 && r[i] == '。' && !Excluded(r[i + 1]) ensures PeriodBrokenBefore(r, i) {
      if i == 5 {
        assert r[..5] == "。<br>";
      } else if 6 <= i {
        assert rest[i - 6] == '。' && !Excluded(rest[i - 5]);
        assert PeriodBrokenBefore(rest, i - 6);
        assert r[i - 5..i] == rest[i - 11..i - 6];
      }
    }
  }

  /** A copied character in front of text that keeps the rule keeps it, unless it is a `。` before an ordinary character. */
  lemma CopyKeepsOrdinaryRule(c: char, rest: string)
    requires OrdinaryAfterBreakOnly(rest)
    requires c == '。' && rest != [] ==> Excluded(rest[0])
    ensures OrdinaryAfterBreakOnly([c] + rest)
  {
    var r := [c] + rest;
    forall i | 0 <= i < |r| - 1 && r[i] == '。' && !Excluded(r[i + 1]) ensures PeriodBrokenBefore(r, i) {
      if i != 0 {
        assert rest[i - 1] == '。' && !Excluded(rest[i]);
        assert PeriodBrokenBefore(rest, i - 1);
        assert r[i - 5..i] == rest[i - 6..i - 1];
      }
    }
  }

  /**
   * The rule as written, case by case: a `。` before an excluded character is
   * left alone, a `。` before an ordinary character gets `<br>` and that
   * character is consumed, and any other character is copied.
   */
  lemma PeriodBreaksAsWrittenCases(c: char, rest: string)
    ensures Excluded(c) ==> PeriodBreaksAsWritten(['。', c] + rest) == ['。'] + PeriodBreaksAsWritten([c] + rest)
    ensures !Excluded(c) ==> PeriodBreaksAsWritten(['。', c] + rest) == "。<br>" + [c] + PeriodBreaksAsWritten(rest)
    ensures c != '。' ==> PeriodBreaksAsWritten([c] + rest) == [c] + PeriodBreaksAsWritten(rest)
  {
    assert (['。', c] + rest)[1..] == [c] + rest;
    assert (['。', c] + rest)[2..] == rest;
    assert ([c] + rest)[1..] == rest;
  }

  /** A `。` right after another `。` gets no break from the rule as written. */
  lemma PeriodAfterPeriodIsMissed()
    ensures PeriodBreaksAsWritten("。。a") == "。<br>。a"
    ensures !Excluded('a')
  {
    var s := "。。a";
    assert s[2..] == "a";
    assert PeriodBreaksAsWritten("a") == "a";
  }

  /**
   * The same rule with the second character as a look-ahead
   * (`/。(?=[^\s）」』\d●<])/g`): every `。` is tested.
   */
  function PeriodBreaks(s: string): (r: string)
    ensures |r| >= |s|
    ensures s != [] ==> r[0] == s[0]
    ensures forall c | c in r :: c in s || IsMarkup(c)
    ensures '。' !in s ==> r == s
    ensures forall i | 0 <= i < |r| - 1 && r[i] == '。' :: Excluded(r[i + 1])
    decreases |s|
  {
    if s == [] then []
    else
      var rest := PeriodBreaks(s[1..]);
      if s[0] == '。' && |s| >= 2 && !Excluded(s[1]) then
        var r := "。<br>" + rest;
        assert r[1] == '<' && r[2] == 'b' && r[3] == 'r' && r[4] == '>';
        assert forall i | 5 <= i < |r| :: r[i] == rest[i - 5];
        r
      else [s[0]] + rest
  }

  /**
   * The corrected rule, case by case: a `。` before an excluded character is
   * left alone, a `。` before an ordinary character gets `<br>` and the next
   * character is tested in turn, and any other character is copied.
   */
  lemma PeriodBreaksCases(c: char, rest: string)
    ensures Excluded(c) ==> PeriodBreaks(['。', c] + rest) == ['。'] + PeriodBreaks([c] + rest)
    ensures !Excluded(c) ==> PeriodBreaks(['。', c] + rest) == "。<br>" + PeriodBreaks([c] + rest)
    ensures c != '。' ==> PeriodBreaks([c] + rest) == [c] + PeriodBreaks(rest)
  {
    assert (['。', c] + rest)[1..] == [c] + rest;
    assert ([c] + rest)[1..] == rest;
  }

  /** The corrected rule breaks after both periods of `。。a`. */
  lemma PeriodAfterPeriodIsBroken()
    ensures PeriodBreaks("。。a") == "。<br>。<br>a"
  {
    var s := "。。a";
    assert s[1..] == "。a" && s[1..][1..] == "a";
    assert PeriodBreaks("a") == "a";
  }

  /**
   * The rewrites before the collapse. Escaping comes first, so the only `<`
   * and `>` are those of the markup; no line feed or asterisk survives.
   */
  function Marked(text: string): (r: string)
    ensures '\n' !in r && '*' !in r
    ensures forall c | c in r :: c in text || IsEntityChar(c) || IsMarkup(c)
  {
    var escaped := Escape(text);
    var lines := Newlines(escaped);
    var bold := Bold(lines);
    assert '\n' !in bold;
    var bullets := Bullets(bold);
    assert '\n' !in bullets;
    var joined := BulletJoin(bullets);
    assert '\n' !in joined && '*' !in joined;
    BulletBreak(joined)
  }

  /** The rewrites before the period rule: right after the collapse no suffix starts with three `<br>`. */
  function BeforePeriods(text: string): (r: string)
    ensures '\n' !in r && '*' !in r
    ensures forall c | c in r :: c in text || IsEntityChar(c) || IsMarkup(c)
    ensures NoTripleBr(r)
  {
    var marked := Marked(text);
    var r := Collapse(marked);
    CollapseLeavesNoTriple(marked);
    CollapseKeepsChars(marked);
    assert '\n' !in r && '*' !in r;
    r
  }

  /**
   * `renderMarkdown` as written: the rewrites in their order, ending with the
   * period rule that consumes the character after each matched `。`. A `。`
   * still followed by an ordinary character is one that rule consumed, so it
   * directly follows a `。<br>`.
   */
  function RenderMarkdown(text: string): (r: string)
    ensures text == [] ==> r == []
    ensures '\n' !in r && '*' !in r
    ensures forall c | c in r :: c in text || IsEntityChar(c) || IsMarkup(c)
    ensures OrdinaryAfterBreakOnly(r)
  {
    if text == [] then [] else
      var before := BeforePeriods(text);
      PeriodBreaksAsWrittenBreaks(before);
      PeriodBreaksAsWritten(before)
  }

  /** `renderMarkdown` with the corrected period rule: every `。` is followed by an allowed character. */
  function RenderMarkdownCorrected(text: string): (r: string)
    ensures text == [] ==> r == []
    ensures '\n' !in r && '*' !in r
    ensures forall c | c in r :: c in text || IsEntityChar(c) || IsMarkup(c)
    ensures forall i | 0 <= i < |r| - 1 && r[i] == '。' :: Excluded(r[i + 1])
  {
    if text == [] then [] else PeriodBreaks(BeforePeriods(text))
  }

  /** The two period rules differ only where a `。` follows a `。`. */
  lemma {:induction false} PeriodRulesAgree(s: string)
    requires forall i | 0 <= i < |s| - 1 :: !(s[i] == '。' && s[i + 1] == '。')
    ensures PeriodBreaksAsWritten(s) == PeriodBreaks(s)
    decreases |s|
  {
    if s != [] {
      if s[0] == '。' && |s| >= 2 && !Excluded(s[1]) {
        var t := s[1..];
        assert t[0] == s[1] != '。';
        assert t[1..] == s[2..];
        PeriodRulesAgree(s[2..]);
        assert PeriodBreaks(t) == [s[1]] + PeriodBreaks(s[2..]);
      } else {
        PeriodRulesAgree(s[1..]);
      }
    }
  }

  /** The renderer as written leaves the second `。` of `。。a` unbroken; the corrected one breaks it. */
  lemma RenderedPeriodAfterPeriod()
    ensures RenderMarkdown("。。a") == "。<br>。a"
    ensures RenderMarkdownCorrected("。。a") == "。<br>。<br>a"
  {
    PeriodsArePlain();
    PeriodAfterPeriodIsMissed();
    PeriodAfterPeriodIsBroken();
  }

  /** `。。a` passes every rewrite before the period rule unchanged. */
  lemma PeriodsArePlain()
    ensures BeforePeriods("。。a") == "。。a"
  {
    var text := "。。a";
    assert Escape(text) == text by {
      assert text[1..] == "。a" && text[1..][1..] == "a" && "a"[1..] == [];
      assert Escape("a") == "a";
      assert Escape("。a") == "。a";
    }
    BeforePeriodsIsEscape(text);
  }

  /**
   * Escaping happens before any markup goes in: every output character is a
   * character of the escaped text or one of the markup, and the escaped text
   * holds no `<` or `>`, so each angle bracket comes from a rewrite rule.
   */
  lemma AngleBracketsAreMarkup(text: string)
    ensures '<' !in Escape(text) && '>' !in Escape(text)
    ensures forall c | c in RenderMarkdown(text) :: c in Escape(text) || IsMarkup(c)
  {
    if text != [] {
      var e := Escape(text);
      var m := BulletBreak(BulletJoin(Bullets(Bold(Newlines(e)))));
      assert forall c | c in m :: c in e || IsMarkup(c);
      assert Marked(text) == m;
      CollapseKeepsChars(m);
      assert BeforePeriods(text) == Collapse(m);
    }
  }

  /** Without line feeds, asterisks or bullets, every rewrite before the period rule leaves the escaped text alone. */
  lemma BeforePeriodsIsEscape(text: string)
    requires '\n' !in text && '*' !in text && '●' !in text
    ensures BeforePeriods(text) == Escape(text)
  {
    var e := Escape(text);
    EscapeAddsNoMarker(text);
    assert Newlines(e) == e;
    assert Bold(e) == e;
    assert Bullets(e) == e;
    assert BulletJoin(e) == e;
    assert BulletBreak(e) == e;
    assert Marked(text) == e;
    CollapseWithoutLt(e);
  }

  /** Text with no markup-relevant character is only escaped; without special characters it is unchanged. */
  lemma PlainTextIsEscaped(text: string)
    requires '\n' !in text && '*' !in text && '●' !in text && '。' !in text
    ensures RenderMarkdown(text) == Escape(text)
    ensures (forall i | 0 <= i < |text| :: !IsSpecial(text[i])) ==> RenderMarkdown(text) == text
  {
    BeforePeriodsIsEscape(text);
    EscapeAddsNoMarker(text);
  }

  /** Escaping brings in no line feed, asterisk, bullet or `<`, and no period the text lacks. */
  lemma EscapeAddsNoMarker(text: string)
    requires '\n' !in text && '*' !in text && '●' !in text
    ensures var e := Escape(text); '\n' !in e && '*' !in e && '●' !in e && '<' !in e
    ensures '。' !in text ==> '。' !in Escape(text)
  {
    var e := Escape(text);
    forall c | c in e ensures c != '\n' && c != '*' && c != '●' && (c == '。' ==> '。' in text) {
      assert c in text || IsEntityChar(c);
    }
  }
}
