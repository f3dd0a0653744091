/**
 * The text the older uploader component builds from a parsed PDF: on every page the
 * strings of the text items joined by single spaces, followed by a newline, pages in
 * order. A document is given as the item strings of each of its pages.
 */
module PageText {

  /** items.join(' '). */
  function JoinWithSpaces(items: seq<string>): (joined: string)
    ensures |items| == 0 ==> joined == ""
    ensures |items| == 1 ==> joined == items[0]
    ensures |items| > 0 ==> |joined| == TotalLength(items) + |items| - 1
  {
    if |items| == 0 then ""
    else if |items| == 1 then items[0]
    else items[0] + " " + JoinWithSpaces(items[1..])
  }

  /** Joining two runs of items is joining each and putting one space between them:
   *  the items appear in order, separated by single spaces. */
  lemma {:induction false} JoinAppend(a: seq<string>, b: seq<string>)
    requires |a| > 0 && |b| > 0
    ensures JoinWithSpaces(a + b) == JoinWithSpaces(a) + " " + JoinWithSpaces(b)
  {
    assert (a + b)[0] == a[0];
    if |a| == 1 {
      assert (a + b)[1..] == b;
    } else {
      assert (a + b)[1..] == a[1..] + b;
      JoinAppend(a[1..], b);
    }
  }

  /** The summed length of the strings. */
  function TotalLength(items: seq<string>): nat {
    if |items| == 0 then 0 else |items[0]| + TotalLength(items[1..])
  }

  /** s.split(' '): the pieces between consecutive spaces, at least one. */
  function SplitOnSpaces(s: string): (pieces: seq<string>)
    ensures |pieces| >= 1
  {
    if |s| == 0 then [""]
    else
      var rest := SplitOnSpaces(s[1..]);
      if s[0] == ' ' then [""] + rest
      else [[s[0]] + rest[0]] + rest[1..]
  }

  predicate HasNoSpace(s: string) {
    forall i :: 0 <= i < |s| ==> s[i] != ' '
  }

  /** A string without a space is a single piece. */
  lemma {:induction false} SplitWord(w: string)
    requires HasNoSpace(w)
    ensures SplitOnSpaces(w) == [w]
  {
    if |w| > 0 {
      SplitWord(w[1..]);
      assert [w[0]] + w[1..] == w;
    }
  }

  /** Splitting stops at the first space, which ends the first piece. */
  lemma {:induction false} SplitAtFirstSpace(w: string, t: string)
    requires HasNoSpace(w)
    ensures SplitOnSpaces(w + " " + t) == [w] + SplitOnSpaces(t)
  {
    if |w| == 0 {
      assert w + " " + t == [' '] + t;
      assert (w + " " + t)[1..] == t;
    } else {
      SplitAtFirstSpace(w[1..], t);
      var s := w + " " + t;
      assert s[1..] == w[1..] + " " + t;
      assert [w[0]] + w[1..] == w;
    }
  }

  /** Joining with spaces and splitting on spaces gives back the items, as long as
   *  there is at least one and none contains a space. */
  lemma {:induction false} SplitJoin(items: seq<string>)
    requires |items| > 0
    requires forall k :: 0 <= k < |items| ==> HasNoSpace(items[k])
    ensures SplitOnSpaces(JoinWithSpaces(items)) == items
  {
    if |items| == 1 {
      SplitWord(items[0]);
    } else {
      SplitJoin(items[1..]);
      SplitAtFirstSpace(items[0], JoinWithSpaces(items[1..]));
    }
  }

  /** pageText + '\n' for one page. */
  function PageLine(items: seq<string>): string {
    JoinWithSpaces(items) + "\n"
  }

  /** The text of pages 1 .. |pages|, in that order. Every page adds at least its
   *  newline, so the text is empty exactly when there are no pages, and otherwise
   *  ends with a newline. */
  function AllPagesText(pages: seq<seq<string>>): (text: string)
    ensures |text| >= |pages|
    ensures text == "" <==> |pages| == 0
    ensures |pages| > 0 ==> text[|text| - 1] == '\n'
  {
    if |pages| == 0 then ""
    else AllPagesText(pages[..|pages| - 1]) + PageLine(pages[|pages| - 1])
  }

  /** The text of a document is the text of its first pages followed by the text of
   *  the others. */
  lemma {:induction false} AllPagesTextAppend(first: seq<seq<string>>, rest: seq<seq<string>>)
    ensures AllPagesText(first + rest) == AllPagesText(first) + AllPagesText(rest)
  {
    if |rest| == 0 {
      assert first + rest == first;
    } else {
      var init, last := rest[..|rest| - 1], rest[|rest| - 1];
      var all := first + rest;
      assert all[..|all| - 1] == first + init;
      assert all[|all| - 1] == last;
      calc {
        AllPagesText(all);
        AllPagesText(first + init) + PageLine(last);
        { AllPagesTextAppend(first, init); }
        (AllPagesText(first) + AllPagesText(init)) + PageLine(last);
        AllPagesText(first) + (AllPagesText(init) + PageLine(last));
        AllPagesText(first) + AllPagesText(rest);
      }
    }
  }

  /** The page loop of the file reader's onload handler: fullText += pageText + '\n'
   *  for pageNum = 1 .. numPages. */
  method ExtractText(pages: seq<seq<string>>) returns (fullText: string)
    ensures fullText == AllPagesText(pages)
  {
    fullText := "";
    var pageNum := 1;
    while pageNum <= |pages|
      invariant 1 <= pageNum <= |pages| + 1
      invariant fullText == AllPagesText(pages[..pageNum - 1])
    {
      var pageText := JoinWithSpaces(pages[pageNum - 1]);
      assert pages[..pageNum][..pageNum - 1] == pages[..pageNum - 1];
      fullText := fullText + pageText + "\n";
      pageNum := pageNum + 1;
    }
    assert pages[..|pages|] == pages;
  }
}
