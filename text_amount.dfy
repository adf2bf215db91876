/** `estimateTextAmount`: the bucket a caption falls into by the number of
    pieces `description.split(/\s+/)` gives. */
module TextAmounts {
  import opened Strings

  datatype TextAmount = NoText | Minimal | Moderate | Substantial

  /** The value stored in a photo's `textAmount` field. */
  function Label(t: TextAmount): string {
    match t
    case NoText => "none"
    case Minimal => "minimal"
    case Moderate => "moderate"
    case Substantial => "substantial"
  }

  /** Buckets ordered by the amount of text they stand for. */
  function Rank(t: TextAmount): nat {
    match t
    case NoText => 0
    case Minimal => 1
    case Moderate => 2
    case Substantial => 3
  }

  /** Index of the first whitespace character, or the length when there is none. */
  function FirstSpace(s: string): (k: nat)
    ensures k <= |s|
    ensures forall i :: 0 <= i < k ==> !IsSpace(s[i])
    ensures k < |s| ==> IsSpace(s[k])
  {
    if s == [] || IsSpace(s[0]) then 0 else 1 + FirstSpace(s[1..])
  }

  /** `s` without its leading whitespace. */
  function DropSpaces(s: string): (r: string)
    ensures EndsWith(s, r)
    ensures r != [] ==> !IsSpace(r[0])
    ensures forall i :: 0 <= i < |s| - |r| ==> IsSpace(s[i])
  {
    if s != [] && IsSpace(s[0]) then DropSpaces(s[1..]) else s
  }

  /** `s.split(/\s+/)`: the pieces between maximal runs of whitespace; a
      leading or trailing run yields an empty first or last piece. */
  function SplitWords(s: string): (pieces: seq<string>)
    ensures |pieces| >= 1
    ensures forall i :: 0 <= i < |pieces| ==> NoSpace(pieces[i])
    decreases |s|
  {
    var k := FirstSpace(s);
    if k == |s| then [s]
    else [s[..k]] + SplitWords(DropSpaces(s[k..]))
  }

  /** Number of maximal runs of whitespace in `s`. */
  function SpaceRuns(s: string): nat
    decreases |s|
  {
    if s == [] then 0
    else if IsSpace(s[0]) then 1 + SpaceRuns(DropSpaces(s))
    else SpaceRuns(s[1..])
  }

  /** The characters of `s` that are not whitespace, in order. */
  function NonSpace(s: string): (r: string)
    ensures NoSpace(r)
  {
    if s == [] then [] else (if IsSpace(s[0]) then [] else [s[0]]) + NonSpace(s[1..])
  }

  function Concat(pieces: seq<string>): string {
    if pieces == [] then [] else pieces[0] + Concat(pieces[1..])
  }

  /** `estimateTextAmount(description)`. */
  function EstimateTextAmount(description: string): TextAmount {
    if description == "" then NoText
    else
      var wordCount := |SplitWords(description)|;
      if wordCount < 3 then Minimal
      else if wordCount < 8 then Moderate
      else Substantial
  }

  lemma {:induction false} NonSpaceOfSpaces(s: string)
    requires forall i :: 0 <= i < |s| ==> IsSpace(s[i])
    ensures NonSpace(s) == []
  {
    if s != [] {
      NonSpaceOfSpaces(s[1..]);
    }
  }

  lemma {:induction false} NonSpaceAppend(a: string, b: string)
    ensures NonSpace(a + b) == NonSpace(a) + NonSpace(b)
  {
    if a != [] {
      assert (a + b)[1..] == a[1..] + b;
      NonSpaceAppend(a[1..], b);
    } else {
      assert a + b == b;
    }
  }

  lemma {:induction false} NonSpaceOfWord(s: string)
    requires NoSpace(s)
    ensures NonSpace(s) == s
  {
    if s != [] {
      NonSpaceOfWord(s[1..]);
    }
  }

  /** The split loses only whitespace: its pieces, put back together, are the
      caption's other characters in order. */
  lemma {:induction false} SplitKeepsText(s: string)
    ensures Concat(SplitWords(s)) == NonSpace(s)
    decreases |s|
  {
    var k := FirstSpace(s);
    if k == |s| {
      NonSpaceOfWord(s);
      assert SplitWords(s) == [s];
      ConcatCons(s, []);
    } else {
      SplitKeepsText(DropSpaces(s[k..]));
      SplitKeepsTextStep(s, k);
    }
  }

  /** One word and the whitespace after it, given the rest of the caption. */
  lemma SplitKeepsTextStep(s: string, k: nat)
    requires k < |s| && k == FirstSpace(s)
    requires Concat(SplitWords(DropSpaces(s[k..]))) == NonSpace(DropSpaces(s[k..]))
    ensures Concat(SplitWords(s)) == NonSpace(s)
  {
    var word, rest := s[..k], DropSpaces(s[k..]);
    NonSpaceStep(s, k);
    assert SplitWords(s) == [word] + SplitWords(rest);
    ConcatCons(word, SplitWords(rest));
  }

  lemma NonSpaceStep(s: string, k: nat)
    requires k < |s| && k == FirstSpace(s)
    ensures NonSpace(s) == s[..k] + NonSpace(DropSpaces(s[k..]))
  {
    var word, rest := s[..k], DropSpaces(s[k..]);
    var gap := LeadingSpaces(s[k..]);
    assert s == word + (gap + rest) by {
      assert s == word + s[k..];
    }
    NonSpaceSkipsGap(word, gap, rest);
  }

  lemma NonSpaceSkipsGap(word: string, gap: string, rest: string)
    requires NoSpace(word)
    requires forall i :: 0 <= i < |gap| ==> IsSpace(gap[i])
    ensures NonSpace(word + (gap + rest)) == word + NonSpace(rest)
  {
    NonSpaceAppend(gap, rest);
    NonSpaceOfSpaces(gap);
    assert NonSpace(gap + rest) == NonSpace(rest);
    NonSpaceAppend(word, gap + rest);
    NonSpaceOfWord(word);
  }

  /** The whitespace `DropSpaces` removes. */
  function LeadingSpaces(s: string): (gap: string)
    ensures s == gap + DropSpaces(s)
    ensures forall i :: 0 <= i < |gap| ==> IsSpace(gap[i])
  {
    var rest := DropSpaces(s);
    var n := |s| - |rest|;
    assert s[n..] == rest;
    assert s == s[..n] + s[n..];
    s[..n]
  }

  lemma ConcatCons(p: string, pieces: seq<string>)
    ensures Concat([p] + pieces) == p + Concat(pieces)
  {
    assert ([p] + pieces)[1..] == pieces;
  }

  /** There is one more piece than there are runs of whitespace. */
  lemma {:induction false} SplitCountsRuns(s: string)
    ensures |SplitWords(s)| == SpaceRuns(s) + 1
    decreases |s|
  {
    var k := FirstSpace(s);
    if k == |s| {
      SpaceRunsOfWord(s);
    } else {
      SplitCountsRuns(DropSpaces(s[k..]));
      SpaceRunsAfterWord(s, k);
    }
  }

  lemma {:induction false} SpaceRunsOfWord(s: string)
    requires NoSpace(s)
    ensures SpaceRuns(s) == 0
    decreases |s|
  {
    if s != [] {
      SpaceRunsOfWord(s[1..]);
    }
  }

  /** Skipping a leading word does not change the number of runs. */
  lemma {:induction false} SpaceRunsAfterWord(s: string, k: nat)
    requires k < |s| && k == FirstSpace(s)
    ensures SpaceRuns(s) == 1 + SpaceRuns(DropSpaces(s[k..]))
    decreases k
  {
    if k > 0 {
      assert s[1..][k - 1..] == s[k..];
      SpaceRunsAfterWord(s[1..], k - 1);
    }
  }

  /** Text amount classifies by word count: the empty caption is `none`, and
      otherwise the number of whitespace-separated pieces decides between
      `minimal` (fewer than 3), `moderate` (fewer than 8) and `substantial`. */
  lemma TextAmountByRuns(description: string)
    ensures EstimateTextAmount(description) == NoText <==> description == ""
    ensures description != "" ==>
      var pieces := SpaceRuns(description) + 1;
      (EstimateTextAmount(description) == Minimal <==> pieces < 3) &&
      (EstimateTextAmount(description) == Moderate <==> 3 <= pieces < 8) &&
      (EstimateTextAmount(description) == Substantial <==> 8 <= pieces)
  {
    SplitCountsRuns(description);
  }

  /** Appending text never removes a run of whitespace. */
  lemma {:induction false} SpaceRunsGrow(s: string, t: string)
    ensures SpaceRuns(s) <= SpaceRuns(s + t)
    decreases |s|
  {
    if s != [] {
      assert (s + t)[0] == s[0];
      if IsSpace(s[0]) {
        var d := DropSpaces(s);
        if d == [] {
          assert SpaceRuns(s) == 1;
        } else {
          DropSpacesAppend(s, t);
          SpaceRunsGrow(d, t);
        }
      } else {
        assert (s + t)[1..] == s[1..] + t;
        SpaceRunsGrow(s[1..], t);
      }
    }
  }

  lemma {:induction false} DropSpacesAppend(s: string, t: string)
    requires DropSpaces(s) != []
    ensures DropSpaces(s + t) == DropSpaces(s) + t
    decreases |s|
  {
    if IsSpace(s[0]) {
      assert (s + t)[1..] == s[1..] + t;
      DropSpacesAppend(s[1..], t);
    }
  }

  /** A longer caption never falls into a smaller text-amount bucket. */
  lemma MoreTextNeverLess(s: string, t: string)
    ensures Rank(EstimateTextAmount(s)) <= Rank(EstimateTextAmount(s + t))
  {
    if s != "" {
      SplitCountsRuns(s);
      SplitCountsRuns(s + t);
      SpaceRunsGrow(s, t);
    }
  }
}
