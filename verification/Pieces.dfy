/** A text as its pieces between separators. */
module Pieces {
  ghost predicate Whole(pieces: seq<string>, sep: char) {
    forall i :: 0 <= i < |pieces| ==> sep !in pieces[i]
  }

  /** The empty text has one, empty, piece. */
  function Split(text: string, sep: char): (pieces: seq<string>)
    ensures |pieces| >= 1 && Whole(pieces, sep)
  {
    if text == "" then [""]
    else
      var rest := Split(text[1..], sep);
      if text[0] == sep then [""] + rest else [[text[0]] + rest[0]] + rest[1..]
  }

  function Join(pieces: seq<string>, sep: char): string {
    if |pieces| == 0 then ""
    else if |pieces| == 1 then pieces[0]
    else pieces[0] + [sep] + Join(pieces[1..], sep)
  }

  lemma {:induction false} JoinAppend(pieces: seq<string>, last: string, sep: char)
    requires pieces != []
    ensures Join(pieces + [last], sep) == Join(pieces, sep) + [sep] + last
  {
    if |pieces| == 1 {
      assert (pieces + [last])[1..] == [last];
    } else {
      assert (pieces + [last])[1..] == pieces[1..] + [last];
      JoinAppend(pieces[1..], last, sep);
    }
  }

  lemma {:induction false} JoinSplit(text: string, sep: char)
    ensures Join(Split(text, sep), sep) == text
  {
    if text == "" {
    } else {
      JoinSplit(text[1..], sep);
      var rest := Split(text[1..], sep);
      if text[0] == sep {
        assert Split(text, sep)[1..] == rest;
      } else if |rest| > 1 {
        assert Split(text, sep)[1..] == rest[1..];
      }
    }
  }

  lemma {:induction false} SplitJoin(pieces: seq<string>, sep: char)
    requires |pieces| >= 1 && Whole(pieces, sep)
    ensures Split(Join(pieces, sep), sep) == pieces
    decreases |pieces|, |pieces[0]|
  {
    var text := Join(pieces, sep);
    if pieces[0] == "" {
      if |pieces| == 1 {
      } else {
        SplitJoin(pieces[1..], sep);
        assert text[1..] == Join(pieces[1..], sep);
      }
    } else {
      var shorter := [pieces[0][1..]] + pieces[1..];
      assert shorter[1..] == pieces[1..];
      assert pieces[0][0] in pieces[0];
      SplitJoin(shorter, sep);
      assert text[1..] == Join(shorter, sep);
      assert text[0] == pieces[0][0];
      assert [text[0]] + shorter[0] == pieces[0];
    }
  }

  /** What follows a text ending in a separator starts a piece of its own. */
  lemma {:induction false} SplitAfter(a: string, b: string, sep: char)
    requires a != "" && a[|a| - 1] == sep
    ensures |Split(a, sep)| >= 2 && Split(a, sep)[|Split(a, sep)| - 1] == ""
    ensures Split(a + b, sep) == Split(a, sep)[..|Split(a, sep)| - 1] + Split(b, sep)
  {
    assert (a + b)[1..] == a[1..] + b;
    if |a| == 1 {
      assert a[1..] + b == b;
      assert Split(a[1..], sep) == [""];
      assert Split(a, sep) == [""] + [""];
      assert Split(a, sep)[..1] == [""];
    } else {
      SplitAfter(a[1..], b, sep);
      Extend(a[0], sep, Split(a[1..], sep), Split(b, sep));
    }
  }

  /** One more character in front goes to the first piece or makes one. */
  lemma Extend(c: char, sep: char, front: seq<string>, back: seq<string>)
    requires |front| >= 2
    ensures
      var whole := front[..|front| - 1] + back;
      if c == sep then [""] + whole == ([""] + front)[..|front|] + back
      else [[c] + whole[0]] + whole[1..] == ([[c] + front[0]] + front[1..])[..|front| - 1] + back
  {
    var whole := front[..|front| - 1] + back;
    if c == sep {
      assert ([""] + front)[..|front|] == [""] + front[..|front| - 1];
    } else {
      assert whole[1..] == front[..|front| - 1][1..] + back;
      assert ([[c] + front[0]] + front[1..])[..|front| - 1] == [[c] + front[0]] + front[..|front| - 1][1..];
    }
  }

  /** How many separators a text holds. */
  function Count(text: string, sep: char): nat {
    if text == "" then 0 else (if text[0] == sep then 1 else 0) + Count(text[1..], sep)
  }

  lemma {:induction false} CountSplit(text: string, sep: char)
    ensures |Split(text, sep)| == Count(text, sep) + 1
  {
    if text == "" {
    } else {
      CountSplit(text[1..], sep);
    }
  }

  lemma {:induction false} CountConcat(a: string, b: string, sep: char)
    ensures Count(a + b, sep) == Count(a, sep) + Count(b, sep)
  {
    if a == "" {
      assert a + b == b;
    } else {
      assert (a + b)[1..] == a[1..] + b;
      CountConcat(a[1..], b, sep);
    }
  }
}
