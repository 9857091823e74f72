/**
 * The string splitting and joining the client relies on: `str::split` on a
 * character, `str::split_whitespace`, and joining with a separator as
 * `Itertools::join` and `slice::join` do.
 */
module Text {

  /** `parts` joined with `sep` between consecutive parts. */
  function Join(parts: seq<string>, sep: string): string
  {
    if |parts| == 0 then ""
    else if |parts| == 1 then parts[0]
    else parts[0] + sep + Join(parts[1..], sep)
  }

  /** `str::split(c)`: the pieces between occurrences of `c`; always at least one piece. */
  function Split(s: string, c: char): (r: seq<string>)
    ensures |r| >= 1
    ensures forall i :: 0 <= i < |r| ==> c !in r[i]
  {
    if s == [] then [""]
    else if s[0] == c then [""] + Split(s[1..], c)
    else
      var rest := Split(s[1..], c);
      [[s[0]] + rest[0]] + rest[1..]
  }

  /** The number of occurrences of `c` in `s`. */
  function Count(c: char, s: string): nat
  {
    if s == [] then 0 else (if s[0] == c then 1 else 0) + Count(c, s[1..])
  }

  /** Unicode's White_Space property, which `split_whitespace` uses. */
  predicate IsWhitespace(c: char)
  {
    var n := c as int;
    || (0x09 <= n <= 0x0D) || n == 0x20 || n == 0x85 || n == 0xA0
    || n == 0x1680 || (0x2000 <= n <= 0x200A) || n == 0x2028 || n == 0x2029
    || n == 0x202F || n == 0x205F || n == 0x3000
  }

  predicate NoWhitespace(s: string)
  {
    forall i :: 0 <= i < |s| ==> !IsWhitespace(s[i])
  }

  /** The characters of `s` that are not whitespace, in order. */
  function Visible(s: string): (r: string)
    ensures NoWhitespace(r)
  {
    if s == [] then "" else (if IsWhitespace(s[0]) then "" else [s[0]]) + Visible(s[1..])
  }

  /** All the strings of `parts`, one after the other. */
  function Concat(parts: seq<string>): string
  {
    if parts == [] then "" else parts[0] + Concat(parts[1..])
  }

  /**
   * The words of `s` after the partial word `word` already read: maximal
   * runs of non-whitespace characters, never empty.
   */
  function Words(s: string, word: string): (r: seq<string>)
    requires NoWhitespace(word)
    ensures forall i :: 0 <= i < |r| ==> r[i] != "" && NoWhitespace(r[i])
    decreases |s|
  {
    if s == [] then (if word == "" then [] else [word])
    else if IsWhitespace(s[0]) then (if word == "" then [] else [word]) + Words(s[1..], "")
    else Words(s[1..], word + [s[0]])
  }

  /** `str::split_whitespace`: the non-empty words of `s`. */
  function SplitWhitespace(s: string): (r: seq<string>)
    ensures forall i :: 0 <= i < |r| ==> r[i] != "" && NoWhitespace(r[i])
  {
    Words(s, "")
  }

  lemma {:induction false} CountConcat(c: char, a: string, b: string)
    ensures Count(c, a + b) == Count(c, a) + Count(c, b)
    decreases |a|
  {
    if a == [] {
      assert a + b == b;
    } else {
      assert (a + b)[1..] == a[1..] + b;
      CountConcat(c, a[1..], b);
    }
  }

  lemma {:induction false} WordsKeepVisible(s: string, word: string)
    requires NoWhitespace(word)
    ensures Concat(Words(s, word)) == word + Visible(s)
    decreases |s|
  {
    if s == [] {
      assert Concat([word]) == word;
    } else if IsWhitespace(s[0]) {
      WordsKeepVisible(s[1..], "");
      var rest := Words(s[1..], "");
      if word != "" {
        assert ([word] + rest)[1..] == rest;
      } else {
        assert [] + rest == rest;
      }
    } else {
      WordsKeepVisible(s[1..], word + [s[0]]);
    }
  }

  /** A run without whitespace extends the partial word. */
  lemma {:induction false} WordsRun(w: string, rest: string, word: string)
    requires NoWhitespace(w) && NoWhitespace(word)
    ensures NoWhitespace(word + w)
    ensures Words(w + rest, word) == Words(rest, word + w)
    decreases |w|
  {
    if w == [] {
      assert w + rest == rest && word + w == word;
    } else {
      assert (w + rest)[0] == w[0] && (w + rest)[1..] == w[1..] + rest;
      WordsRun(w[1..], rest, word + [w[0]]);
      assert word + [w[0]] + w[1..] == word + w;
    }
  }

  /** Words joined by single spaces are read back one by one, the first after the partial word. */
  lemma {:induction false} WordsOfJoin(ws: seq<string>, word: string)
    requires ws != [] && NoWhitespace(word)
    requires forall i :: 0 <= i < |ws| ==> ws[i] != "" && NoWhitespace(ws[i])
    ensures NoWhitespace(word + ws[0])
    ensures Words(Join(ws, " "), word) == [word + ws[0]] + ws[1..]
    decreases |ws|
  {
    if |ws| == 1 {
      WordsRun(ws[0], "", word);
      assert ws[0] + "" == ws[0];
    } else {
      var tail := Join(ws[1..], " ");
      WordsRun(ws[0], " " + tail, word);
      assert ws[0] + " " + tail == ws[0] + (" " + tail);
      assert (" " + tail)[0] == ' ' && (" " + tail)[1..] == tail;
      WordsOfJoin(ws[1..], "");
      assert "" + ws[1] == ws[1];
      assert [ws[1]] + ws[2..] == ws[1..];
    }
  }

  /** Round trip: non-empty words without whitespace, joined by spaces, split back into those words. */
  lemma SplitWhitespaceJoin(ws: seq<string>)
    requires forall i :: 0 <= i < |ws| ==> ws[i] != "" && NoWhitespace(ws[i])
    ensures SplitWhitespace(Join(ws, " ")) == ws
  {
    if ws != [] {
      var j := Join(ws, " ");
      WordsOfJoin(ws, "");
      var first := "" + ws[0];
      assert Words(j, "") == [first] + ws[1..];
      assert first == ws[0];
      assert [ws[0]] + ws[1..] == ws;
    }
  }

  /** Splitting on whitespace loses exactly the whitespace: the words put back together are the visible characters. */
  lemma SplitWhitespaceKeepsVisible(s: string)
    ensures Concat(SplitWhitespace(s)) == Visible(s)
  {
    WordsKeepVisible(s, "");
  }

  lemma {:induction false} SplitWithout(a: string, c: char)
    requires c !in a
    ensures Split(a, c) == [a]
    decreases |a|
  {
    if a != [] {
      SplitWithout(a[1..], c);
      assert [a[0]] + a[1..] == a;
    }
  }

  lemma {:induction false} SplitAfter(a: string, t: string, c: char)
    requires c !in a
    ensures Split(a + [c] + t, c) == [a] + Split(t, c)
    decreases |a|
  {
    if a == [] {
      assert a + [c] + t == [c] + t;
      assert ([c] + t)[1..] == t;
    } else {
      assert (a + [c] + t)[1..] == a[1..] + [c] + t;
      SplitAfter(a[1..], t, c);
      assert [a[0]] + a[1..] == a;
    }
  }

  /** Splitting a join on the separator character gives the parts back, when no part contains it. */
  lemma {:induction false} SplitJoin(parts: seq<string>, c: char)
    requires |parts| >= 1
    requires forall i :: 0 <= i < |parts| ==> c !in parts[i]
    ensures Split(Join(parts, [c]), c) == parts
    decreases |parts|
  {
    if |parts| == 1 {
      SplitWithout(parts[0], c);
    } else {
      SplitJoin(parts[1..], c);
      SplitAfter(parts[0], Join(parts[1..], [c]), c);
      assert [parts[0]] + parts[1..] == parts;
    }
  }

  /** Joining the pieces of a split with the separator gives the original text. */
  lemma {:induction false} JoinSplit(s: string, c: char)
    ensures Join(Split(s, c), [c]) == s
    decreases |s|
  {
    if s != [] {
      var rest := Split(s[1..], c);
      JoinSplit(s[1..], c);
      if s[0] == c {
        assert Split(s, c) == [""] + rest;
        JoinCons("", rest, [c]);
        assert "" + [c] + s[1..] == s;
      } else {
        assert Split(s, c) == [[s[0]] + rest[0]] + rest[1..];
        if |rest| == 1 {
          assert Join([[s[0]] + rest[0]], [c]) == [s[0]] + rest[0];
          assert rest == [rest[0]];
          assert [s[0]] + s[1..] == s;
        } else {
          var tail := Join(rest[1..], [c]);
          JoinCons([s[0]] + rest[0], rest[1..], [c]);
          JoinCons(rest[0], rest[1..], [c]);
          assert [rest[0]] + rest[1..] == rest;
          Regroup([s[0]], rest[0], [c], tail);
          assert [s[0]] + s[1..] == s;
        }
      }
    }
  }

  /** A join of two or more parts is the first, the separator, and the join of the rest. */
  lemma JoinCons(x: string, rest: seq<string>, sep: string)
    requires rest != []
    ensures Join([x] + rest, sep) == x + sep + Join(rest, sep)
  {
    assert ([x] + rest)[0] == x && ([x] + rest)[1..] == rest;
  }

  /** Regrouping a concatenation of three texts. */
  lemma Assoc(a: string, b: string, c: string)
    ensures a + b + c == a + (b + c)
  {
  }

  /** Regrouping the last three of four concatenated texts. */
  lemma Regroup(w: string, a: string, b: string, c: string)
    ensures w + a + b + c == w + (a + b + c)
  {
    assert w + a + b + c == (w + a) + (b + c);
    assert (w + a) + (b + c) == w + (a + (b + c));
    assert a + (b + c) == a + b + c;
  }
}
