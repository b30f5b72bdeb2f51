/**
 * `_wrap_text(text, max_chars)`, the label wrapper of the SVG node cards:
 * text that fits is kept as one line; longer text is split into words at
 * Python whitespace, the words are packed greedily into lines of at most
 * `max_chars` characters, and only the first two lines are kept.
 */
module TextWrap {
  import opened Seqs

  /** The characters for which Python's `str.isspace()` holds: `str.split()` separates at runs of them. */
  predicate IsSpace(c: char)
  {
    || ('\U{0009}' <= c <= '\U{000D}') || ('\U{001C}' <= c <= '\U{001F}') || c == ' '
    || c == '\U{0085}' || c == '\U{00A0}' || c == '\U{1680}' || ('\U{2000}' <= c <= '\U{200A}')
    || c == '\U{2028}' || c == '\U{2029}' || c == '\U{202F}' || c == '\U{205F}' || c == '\U{3000}'
  }

  /** A word as `str.split()` yields it: non-empty, without whitespace. */
  ghost predicate IsWord(w: string)
  {
    |w| > 0 && forall i :: 0 <= i < |w| ==> !IsSpace(w[i])
  }

  /** The end of the run of non-whitespace starting at `i`. */
  function WordEnd(s: string, i: nat): (k: nat)
    requires i <= |s|
    ensures i <= k <= |s|
    ensures forall j :: i <= j < k ==> !IsSpace(s[j])
    ensures k < |s| ==> IsSpace(s[k])
    decreases |s| - i
  {
    if i == |s| || IsSpace(s[i]) then i else WordEnd(s, i + 1)
  }

  /** Python's `s.split()` with no arguments. */
  function Words(s: string): (ws: seq<string>)
    ensures forall k :: 0 <= k < |ws| ==> IsWord(ws[k])
    decreases |s|
  {
    if |s| == 0 then []
    else if IsSpace(s[0]) then Words(s[1..])
    else
      var k := WordEnd(s, 0);
      [s[..k]] + Words(s[k..])
  }

  /** A word followed by nothing or by whitespace ends where the word ends. */
  lemma {:induction false} WordEndOfWord(w: string, rest: string, i: nat)
    requires IsWord(w) && i <= |w|
    requires |rest| == 0 || IsSpace(rest[0])
    ensures WordEnd(w + rest, i) == |w|
    decreases |w| - i
  {
    if i < |w| {
      assert (w + rest)[i] == w[i];
      WordEndOfWord(w, rest, i + 1);
    }
  }

  /** Splitting a word followed by a space and more text yields the word, then the split of the rest. */
  lemma WordsCons(w: string, rest: string)
    requires IsWord(w)
    ensures Words(w + " " + rest) == [w] + Words(rest)
  {
    var s := w + " " + rest;
    WordEndOfWord(w, " " + rest, 0);
    assert s == w + (" " + rest);
    assert s[..|w|] == w;
    assert s[|w|..] == " " + rest;
    assert (" " + rest)[1..] == rest;
  }

  lemma WordsOfWord(w: string)
    requires IsWord(w)
    ensures Words(w) == [w]
  {
    WordEndOfWord(w, "", 0);
    assert w + "" == w;
    assert w[..|w|] == w && w[|w|..] == "";
  }

  /** Round trip: splitting words joined by single spaces gives back the words. */
  lemma {:induction false} WordsOfJoin(ws: seq<string>)
    requires forall k :: 0 <= k < |ws| ==> IsWord(ws[k])
    ensures Words(Join(" ", ws)) == ws
    decreases |ws|
  {
    if |ws| == 1 {
      WordsOfWord(ws[0]);
    } else if |ws| > 1 {
      WordsOfJoin(ws[1..]);
      WordsCons(ws[0], Join(" ", ws[1..]));
      assert ws == [ws[0]] + ws[1..];
    }
  }

  /** The sum of the lengths of `ws`. */
  function TotalLen(ws: seq<string>): nat
  {
    if |ws| == 0 then 0 else |ws[0]| + TotalLen(ws[1..])
  }

  lemma {:induction false} TotalLenAppend(ws: seq<string>, w: string)
    ensures TotalLen(ws + [w]) == TotalLen(ws) + |w|
    decreases |ws|
  {
    if |ws| > 0 {
      assert (ws + [w])[1..] == ws[1..] + [w];
      TotalLenAppend(ws[1..], w);
    }
  }

  /** A line of words joined by single spaces is as long as its words plus one space between each two. */
  lemma {:induction false} JoinLength(ws: seq<string>)
    requires |ws| > 0
    ensures |Join(" ", ws)| == TotalLen(ws) + |ws| - 1
    decreases |ws|
  {
    if |ws| > 1 {
      JoinLength(ws[1..]);
    }
  }

  /** `current` can take `w` without its joined line growing past `maxChars` (the loop's test). */
  predicate Fits(current: seq<string>, w: string, maxChars: int)
  {
    TotalLen(current) + |current| + |w| <= maxChars
  }

  /**
   * The packing loop from the state `current` onwards: each word joins the
   * current line if it fits and otherwise starts a new one; the last line
   * is flushed at the end. Lines are returned as their words.
   */
  function Fill(words: seq<string>, current: seq<string>, maxChars: int): seq<seq<string>>
    decreases |words|
  {
    if |words| == 0 then (if |current| > 0 then [current] else [])
    else if Fits(current, words[0], maxChars) then Fill(words[1..], current + [words[0]], maxChars)
    else (if |current| > 0 then [current] else []) + Fill(words[1..], [words[0]], maxChars)
  }

  /** The concatenation of a list of lists. */
  function Flatten(gs: seq<seq<string>>): seq<string>
  {
    if |gs| == 0 then [] else gs[0] + Flatten(gs[1..])
  }

  lemma {:induction false} FlattenAppend(a: seq<seq<string>>, b: seq<seq<string>>)
    ensures Flatten(a + b) == Flatten(a) + Flatten(b)
    decreases |a|
  {
    if |a| > 0 {
      assert (a + b)[1..] == a[1..] + b;
      FlattenAppend(a[1..], b);
    } else {
      assert a + b == b;
    }
  }

  /** A line is well packed: it has words, and it overflows only when it is a single word. */
  predicate WellPacked(g: seq<string>, maxChars: int)
  {
    |g| > 0 && (|g| == 1 || TotalLen(g) + |g| - 1 <= maxChars)
  }

  /**
   * The packing keeps every word, in order, and packs every line well,
   * provided the current line is well packed (or empty) to begin with.
   */
  lemma {:induction false} FillKeepsWords(words: seq<string>, current: seq<string>, maxChars: int)
    requires |current| == 0 || WellPacked(current, maxChars)
    ensures Flatten(Fill(words, current, maxChars)) == current + words
    ensures forall k :: 0 <= k < |Fill(words, current, maxChars)| ==> WellPacked(Fill(words, current, maxChars)[k], maxChars)
    decreases |words|
  {
    var r := Fill(words, current, maxChars);
    if |words| == 0 {
      if |current| > 0 {
        assert Flatten([current]) == current + Flatten([]);
      }
    } else if Fits(current, words[0], maxChars) {
      var next := current + [words[0]];
      TotalLenAppend(current, words[0]);
      FillKeepsWords(words[1..], next, maxChars);
      assert current + words == next + words[1..];
    } else {
      var head := if |current| > 0 then [current] else [];
      var tail := Fill(words[1..], [words[0]], maxChars);
      assert TotalLen([words[0]]) == |words[0]| + TotalLen([]);
      FillKeepsWords(words[1..], [words[0]], maxChars);
      FlattenAppend(head, tail);
      if |current| > 0 {
        assert Flatten(head) == current + Flatten([]);
      }
      assert current + words == current + ([words[0]] + words[1..]);
    }
  }

  /** The first word of each line after the first would not have fitted on the line before it. */
  predicate Greedy(lines: seq<seq<string>>, maxChars: int)
  {
    forall k :: 0 < k < |lines| ==> |lines[k]| > 0 && !Fits(lines[k - 1], lines[k][0], maxChars)
  }

  /** The packing is greedy: no line could have taken the next line's first word. */
  lemma {:induction false} FillIsGreedy(words: seq<string>, current: seq<string>, maxChars: int)
    ensures Greedy(Fill(words, current, maxChars), maxChars)
    decreases |words|
  {
    if |words| > 0 {
      if Fits(current, words[0], maxChars) {
        FillIsGreedy(words[1..], current + [words[0]], maxChars);
      } else {
        FillIsGreedy(words[1..], [words[0]], maxChars);
        FillStartsWith(words[1..], [words[0]], maxChars);
        var tail := Fill(words[1..], [words[0]], maxChars);
        if |current| == 0 {
          assert Fill(words, current, maxChars) == [] + tail;
          assert [] + tail == tail;
        } else {
          var r := [current] + tail;
          assert r == Fill(words, current, maxChars);
          forall k | 0 < k < |r|
            ensures |r[k]| > 0 && !Fits(r[k - 1], r[k][0], maxChars)
          {
            if k > 1 {
              assert r[k] == tail[k - 1] && r[k - 1] == tail[k - 2];
            }
          }
        }
      }
    }
  }

  /** Starting from a non-empty current line, the first line begins with that line's first word. */
  lemma {:induction false} FillStartsWith(words: seq<string>, current: seq<string>, maxChars: int)
    requires |current| > 0
    ensures |Fill(words, current, maxChars)| > 0
    ensures |Fill(words, current, maxChars)[0]| > 0 && Fill(words, current, maxChars)[0][0] == current[0]
    decreases |words|
  {
    if |words| > 0 && Fits(current, words[0], maxChars) {
      FillStartsWith(words[1..], current + [words[0]], maxChars);
    }
  }

  /** The lines of `_wrap_text` before the cut to two, each a space-joined run of words. */
  function PackedLines(text: string, maxChars: int): seq<seq<string>>
  {
    Fill(Words(text), [], maxChars)
  }

  /** `lines[:2]`. */
  function FirstTwo<T>(s: seq<T>): (r: seq<T>)
    ensures |r| <= 2 && r <= s
  {
    if |s| <= 2 then s else s[..2]
  }

  /** `_wrap_text(text, max_chars)`. */
  function WrapText(text: string, maxChars: int): (lines: seq<string>)
    ensures |text| <= maxChars ==> lines == [text]
    ensures |lines| <= 2
  {
    if |text| <= maxChars then [text]
    else
      var groups := FirstTwo(PackedLines(text, maxChars));
      seq(|groups|, k requires 0 <= k < |groups| => Join(" ", groups[k]))
  }

  /**
   * Long text wraps into at most two non-empty lines; a line longer than
   * `max_chars` is a single word; each line splits back into the words it
   * was packed from; and those words, line after line, are the first words
   * of the text, in order and unbroken.
   */
  lemma WrapTextLines(text: string, maxChars: int)
    requires |text| > maxChars
    ensures var lines, groups := WrapText(text, maxChars), FirstTwo(PackedLines(text, maxChars));
            && |lines| == |groups| <= 2
            && (forall k :: 0 <= k < |lines| ==> |lines[k]| > 0)
            && (forall k :: 0 <= k < |lines| ==> Words(lines[k]) == groups[k])
            && (forall k :: 0 <= k < |lines| && |lines[k]| > maxChars ==> |Words(lines[k])| == 1)
            && Flatten(groups) <= Words(text)
  {
    var words := Words(text);
    var all := PackedLines(text, maxChars);
    var groups := FirstTwo(all);
    var lines := WrapText(text, maxChars);
    FillKeepsWords(words, [], maxChars);
    forall k | 0 <= k < |groups|
      ensures |lines[k]| > 0 && Words(lines[k]) == groups[k]
      ensures |lines[k]| > maxChars ==> |groups[k]| == 1
    {
      assert groups[k] == all[k];
      assert WellPacked(groups[k], maxChars);
      assert forall j :: 0 <= j < |groups[k]| ==> groups[k][j] in Flatten(all) by {
        FlattenMember(all, k);
      }
      forall j | 0 <= j < |groups[k]|
        ensures IsWord(groups[k][j])
      {
        assert groups[k][j] in words;
      }
      WordsOfJoin(groups[k]);
      JoinLength(groups[k]);
    }
    assert all == groups + all[|groups|..];
    FlattenAppend(groups, all[|groups|..]);
    assert [] + words == words;
    assert Flatten(all) == Flatten(groups) + Flatten(all[|groups|..]);
  }

  lemma {:induction false} FlattenMember(gs: seq<seq<string>>, k: int)
    requires 0 <= k < |gs|
    ensures forall j :: 0 <= j < |gs[k]| ==> gs[k][j] in Flatten(gs)
    decreases |gs|
  {
    if k > 0 {
      FlattenMember(gs[1..], k - 1);
    }
  }

  /** Long text yields no line at all exactly when it is nothing but whitespace. */
  lemma WrapTextEmptyOnlyForBlank(text: string, maxChars: int)
    requires |text| > maxChars
    ensures |WrapText(text, maxChars)| == 0 <==> |Words(text)| == 0
  {
    FillKeepsWords(Words(text), [], maxChars);
    var all := PackedLines(text, maxChars);
    if |all| == 0 {
      assert Flatten(all) == [];
    } else {
      assert WellPacked(all[0], maxChars);
    }
  }
}
