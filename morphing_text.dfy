/** The morphing effect of the processed view: once the processed text is
    non-empty, the displayed text passes through one frame per word
    position, in which the first words are already the processed ones, the
    word at the current position is being replaced and the rest are still
    the original's. Timing, the progress value and the animation are not
    part of this model; only the sequence of displayed texts is. */
module MorphingText {
  import opened KotlinText

  /** The words of a text: its pieces between single spaces. */
  function Words(s: string): (r: seq<string>)
    ensures |r| >= 1
  {
    Split(s, ' ')
  }

  /** The number of word positions the morph walks through. */
  function MaxLength(original: string, processed: string): (r: nat)
    ensures r >= 1
    ensures r >= |Words(original)| && r >= |Words(processed)|
    ensures r == |Words(original)| || r == |Words(processed)|
  {
    if |Words(original)| >= |Words(processed)| then |Words(original)| else |Words(processed)|
  }

  /** The space after position `j`, left out after the last position. */
  function Gap(m: nat, j: int): string {
    if j + 1 < m then " " else ""
  }

  /** What position `j` contributes at step `i`: the processed word (with
      its space) before the current position, the new word at the current
      position when it is not empty, and the original word after it; a
      position past the end of the words in question contributes nothing. */
  function Piece(ow: seq<string>, pw: seq<string>, m: nat, i: int, j: int): string {
    if j < i then
      (if 0 <= j < |pw| then pw[j] + Gap(m, j) else "")
    else if j == i then
      var newWord := if 0 <= j < |pw| then pw[j] else "";
      if |newWord| > 0 then newWord + Gap(m, j) else ""
    else
      (if 0 <= j < |ow| then ow[j] + Gap(m, j) else "")
  }

  /** The pieces of step `i`, one per position. */
  function Pieces(ow: seq<string>, pw: seq<string>, m: nat, i: int): (r: seq<string>)
    ensures |r| == m
    ensures forall j :: 0 <= j < m ==> r[j] == Piece(ow, pw, m, i, j)
  {
    seq(m, j => Piece(ow, pw, m, i, j))
  }

  /** Pieces written one after the other. */
  function Flatten(ps: seq<string>): string
    decreases |ps|
  {
    if ps == [] then "" else Flatten(ps[..|ps| - 1]) + ps[|ps| - 1]
  }

  /** The text displayed at step `i`. */
  function Frame(original: string, processed: string, i: int): string {
    var m := MaxLength(original, processed);
    Flatten(Pieces(Words(original), Words(processed), m, i))
  }

  /** The texts displayed one after the other: the original alone while the
      processed text is empty, otherwise one frame for each step from 0 to
      the number of word positions, both included. */
  function Frames(original: string, processed: string): seq<string> {
    if |processed| == 0 then [original]
    else seq(MaxLength(original, processed) + 1, i => Frame(original, processed, i))
  }

  /** The `LaunchedEffect` of the morph: the texts it assigns, in order, to
      the displayed text. */
  method MorphFrames(original: string, processed: string) returns (frames: seq<string>)
    ensures frames == Frames(original, processed)
  {
    if |processed| == 0 {
      return [original];
    }
    var originalWords := Split(original, ' ');
    var processedWords := Split(processed, ' ');
    var maxLength := if |originalWords| >= |processedWords| then |originalWords| else |processedWords|;
    assert maxLength == MaxLength(original, processed);
    frames := [];
    var i := 0;
    while i <= maxLength
      invariant 0 <= i <= maxLength + 1
      invariant frames == seq(i, k => Frame(original, processed, k))
    {
      var morphed := BuildFrame(originalWords, processedWords, maxLength, i);
      assert morphed == Frame(original, processed, i);
      FramesSnoc(original, processed, frames, i);
      frames := frames + [morphed];
      i := i + 1;
    }
  }

  /** The frames before step `i`, extended by the frame of step `i`. */
  lemma FramesSnoc(original: string, processed: string, frames: seq<string>, i: nat)
    requires frames == seq(i, k => Frame(original, processed, k))
    ensures frames + [Frame(original, processed, i)] == seq(i + 1, k => Frame(original, processed, k))
  {
  }

  /** A word appended with the space that follows it unless it sits at the
      last position. */
  method AppendWord(morphed: string, word: string, maxLength: nat, j: nat) returns (r: string)
    ensures r == morphed + (word + Gap(maxLength, j))
  {
    r := morphed + word;
    if j < maxLength - 1 {
      r := r + " ";
    }
  }

  /** The `buildString` block of step `i`: the pieces of every position,
      appended in order. */
  method BuildFrame(originalWords: seq<string>, processedWords: seq<string>, maxLength: nat, i: nat)
    returns (morphed: string)
    ensures morphed == Flatten(Pieces(originalWords, processedWords, maxLength, i))
  {
    ghost var pieces := Pieces(originalWords, processedWords, maxLength, i);
    morphed := "";
    var j := 0;
    while j < maxLength
      invariant 0 <= j <= maxLength
      invariant morphed == Flatten(pieces[..j])
    {
      assert pieces[..j + 1][..j] == pieces[..j];
      ghost var before := morphed;
      if j < i {
        PieceDone(originalWords, processedWords, maxLength, i, j);
        if j < |processedWords| {
          morphed := AppendWord(morphed, processedWords[j], maxLength, j);
        }
      } else if j == i {
        PieceCurrent(originalWords, processedWords, maxLength, i);
        var newWord := if j < |processedWords| then processedWords[j] else "";
        if |newWord| > 0 {
          morphed := AppendWord(morphed, newWord, maxLength, j);
        }
      } else {
        PiecePending(originalWords, processedWords, maxLength, i, j);
        if j < |originalWords| {
          morphed := AppendWord(morphed, originalWords[j], maxLength, j);
        }
      }
      assert morphed == before + pieces[j];
      j := j + 1;
    }
    assert pieces[..j] == pieces;
  }

  /** Joining a list extended by one piece. */
  lemma {:induction false} JoinSnoc(a: seq<string>, x: string, sep: string)
    ensures Join(a + [x], sep) == if a == [] then x else Join(a, sep) + sep + x
    decreases |a|
  {
    if |a| == 1 {
      assert (a + [x])[1..] == [x];
    } else if |a| > 1 {
      assert (a + [x])[1..] == a[1..] + [x];
      JoinSnoc(a[1..], x, sep);
    }
  }

  /** Pieces that are each a word of `w` with its space make those words
      joined by spaces, followed by one more space unless the last of them
      sits at the last position. */
  lemma {:induction false} FlattenWords(ps: seq<string>, w: seq<string>, m: nat, n: nat)
    requires n <= |ps| && n <= |w| && n <= m
    requires forall j :: 0 <= j < n ==> ps[j] == w[j] + Gap(m, j)
    ensures Flatten(ps[..n]) == if n == 0 then "" else Join(w[..n], " ") + Gap(m, n - 1)
    decreases n
  {
    if n > 0 {
      FlattenWords(ps, w, m, n - 1);
      assert ps[..n][..n - 1] == ps[..n - 1];
      assert w[..n] == w[..n - 1] + [w[n - 1]];
      JoinSnoc(w[..n - 1], w[n - 1], " ");
      if n > 1 {
        assert Gap(m, n - 2) == " ";
      }
    }
  }

  /** Empty pieces at the end add nothing. */
  lemma {:induction false} FlattenEmptyTail(ps: seq<string>, k: nat)
    requires k <= |ps|
    requires forall j :: k <= j < |ps| ==> ps[j] == ""
    ensures Flatten(ps) == Flatten(ps[..k])
    decreases |ps|
  {
    if |ps| > k {
      var init := ps[..|ps| - 1];
      assert init[..k] == ps[..k];
      FlattenEmptyTail(init, k);
    } else {
      assert ps[..k] == ps;
    }
  }

  /** The pieces written so far start the whole text. */
  lemma {:induction false} FlattenGrows(ps: seq<string>, k: nat)
    requires k <= |ps|
    ensures StartsWith(Flatten(ps), Flatten(ps[..k]))
    decreases |ps|
  {
    if |ps| > k {
      var init := ps[..|ps| - 1];
      assert init[..k] == ps[..k];
      FlattenGrows(init, k);
    } else {
      assert ps[..k] == ps;
    }
  }

  /** There is one frame per step once the processed text is non-empty. */
  lemma FrameCount(original: string, processed: string)
    ensures |Frames(original, processed)| == if |processed| == 0 then 1 else MaxLength(original, processed) + 1
  {
  }

  /** A position before the current one shows its processed word. */
  lemma PieceDone(ow: seq<string>, pw: seq<string>, m: nat, i: int, j: int)
    requires 0 <= j < i
    ensures Piece(ow, pw, m, i, j) == if j < |pw| then pw[j] + Gap(m, j) else ""
  {
  }

  /** The current position shows its new word unless that is empty. */
  lemma PieceCurrent(ow: seq<string>, pw: seq<string>, m: nat, i: int)
    requires 0 <= i
    ensures Piece(ow, pw, m, i, i) == if i < |pw| && |pw[i]| > 0 then pw[i] + Gap(m, i) else ""
  {
  }

  /** A position after the current one still shows its original word. */
  lemma PiecePending(ow: seq<string>, pw: seq<string>, m: nat, i: int, j: int)
    requires 0 <= i < j
    ensures Piece(ow, pw, m, i, j) == if j < |ow| then ow[j] + Gap(m, j) else ""
  {
  }

  /** After the last position every piece is the processed word with its
      space, or nothing past the processed words. */
  lemma FinalRow(ow: seq<string>, pw: seq<string>, m: nat)
    requires 1 <= |pw| <= m
    ensures Flatten(Pieces(ow, pw, m, m)) == Join(pw, " ") + (if |pw| < m then " " else "")
  {
    var ps := Pieces(ow, pw, m, m);
    forall j | 0 <= j < |pw|
      ensures ps[j] == pw[j] + Gap(m, j)
    {
      PieceDone(ow, pw, m, m, j);
    }
    forall j | |pw| <= j < m
      ensures ps[j] == ""
    {
      PieceDone(ow, pw, m, m, j);
    }
    FlattenWords(ps, pw, m, |pw|);
    FlattenEmptyTail(ps, |pw|);
    assert pw[..|pw|] == pw;
  }

  /** The last frame is the processed text, with one space left over at its
      end when the processed text has fewer words than the original. */
  lemma FinalFrame(original: string, processed: string)
    requires |processed| > 0
    ensures var fs := Frames(original, processed);
      fs[|fs| - 1] == processed + (if |Words(processed)| < |Words(original)| then " " else "")
  {
    var ow, pw, m := Words(original), Words(processed), MaxLength(original, processed);
    var fs := Frames(original, processed);
    assert fs[|fs| - 1] == Frame(original, processed, m);
    FinalRow(ow, pw, m);
    JoinSplit(processed, ' ');
    assert [' '] == " ";
    assert Join(pw, " ") == processed;
    assert (|pw| < m) == (|pw| < |ow|);
  }

  /** At a step `i` within the processed words, the frame starts with the
      first `i` processed words, each followed by its space. */
  lemma MorphedWordsLead(original: string, processed: string, i: nat)
    requires 0 < i < MaxLength(original, processed) && i <= |Words(processed)|
    ensures StartsWith(Frame(original, processed, i), Join(Words(processed)[..i], " ") + " ")
  {
    var ow, pw, m := Words(original), Words(processed), MaxLength(original, processed);
    var ps := Pieces(ow, pw, m, i);
    forall j | 0 <= j < i
      ensures ps[j] == pw[j] + Gap(m, j)
    {
      PieceDone(ow, pw, m, i, j);
    }
    FlattenWords(ps, pw, m, i);
    FlattenGrows(ps, i);
    assert Gap(m, i - 1) == " ";
  }

  /** A list of non-empty words morphed into itself shows those words
      joined by spaces at every step. */
  lemma SteadyRow(w: seq<string>, i: int)
    requires |w| >= 1 && 0 <= i && forall k :: 0 <= k < |w| ==> |w[k]| > 0
    ensures Flatten(Pieces(w, w, |w|, i)) == Join(w, " ")
  {
    var m := |w|;
    var ps := Pieces(w, w, m, i);
    forall j | 0 <= j < m
      ensures ps[j] == w[j] + Gap(m, j)
    {
      if j < i {
        PieceDone(w, w, m, i, j);
      } else if j == i {
        PieceCurrent(w, w, m, i);
      } else {
        PiecePending(w, w, m, i, j);
      }
    }
    assert ps[..m] == ps && w[..m] == w;
    FlattenWords(ps, w, m, m);
  }

  /** Morphing a text into itself, when no word of it is empty (no leading,
      trailing or doubled space), shows that text in every frame. */
  lemma SteadyWhenUnchanged(text: string, i: nat)
    requires |text| > 0 && forall k :: 0 <= k < |Words(text)| ==> |Words(text)[k]| > 0
    requires i <= MaxLength(text, text)
    ensures Frames(text, text)[i] == text
  {
    SteadyRow(Words(text), i);
    JoinSplit(text, ' ');
    assert [' '] == " ";
    assert Frames(text, text)[i] == Frame(text, text, i);
  }
}
