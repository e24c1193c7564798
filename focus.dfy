/** The focus-point selector (`processWord`): which character of a token is
    highlighted, and the split of the token around it. */
module Focus {
  import opened Text

  /** What the three display regions show for one token. */
  datatype Parts = Parts(left: string, focus: string, right: string)

  /** The rank, among the token's letters and digits, of the character to
      highlight, chosen from the stripped length. */
  function TargetRank(cleanLen: nat): (k: nat)
    ensures k <= 4
    ensures cleanLen >= 1 ==> k < cleanLen
    ensures cleanLen <= 1 ==> k == 0
  {
    if cleanLen <= 1 then 0
    else if cleanLen <= 5 then 1
    else if cleanLen <= 9 then 2
    else if cleanLen <= 13 then 3
    else 4
  }

  /** Shifts an index found in a suffix back into the whole token; -1 means
      "not found" and stays -1. */
  function Offset(r: int, shift: nat): int
  {
    if r < 0 then -1 else r + shift
  }

  /** Position of the letter or digit of rank `k` in `w`, or -1 when `w` has
      no more than `k` of them. */
  function RankIndex(w: string, k: nat): (r: int)
    ensures -1 <= r < |w|
  {
    if w == [] then -1
    else if IsAlnum(w[0]) then
      (if k == 0 then 0 else Offset(RankIndex(w[1..], k - 1), 1))
    else Offset(RankIndex(w[1..], k), 1)
  }

  /** A found position is a letter or digit with exactly `k` letters or digits
      before it, so it is the `k`-th character of the stripped token. */
  lemma {:induction false} RankIndexSound(w: string, k: nat)
    requires RankIndex(w, k) >= 0
    ensures IsAlnum(w[RankIndex(w, k)])
    ensures |Clean(w[..RankIndex(w, k)])| == k
    ensures k < |Clean(w)| && Clean(w)[k] == w[RankIndex(w, k)]
  {
    var r := RankIndex(w, k);
    assert w == [w[0]] + w[1..];
    if IsAlnum(w[0]) && k == 0 {
      assert w[..r] == [];
    } else {
      var k' := if IsAlnum(w[0]) then k - 1 else k;
      RankIndexSound(w[1..], k');
      var r' := RankIndex(w[1..], k');
      assert r == r' + 1;
      assert w[..r] == [w[0]] + w[1..][..r'];
      CleanAppend([w[0]], w[1..][..r']);
      assert [w[0]][1..] == [];
    }
  }

  /** The search fails exactly when the token has no letter or digit of rank `k`. */
  lemma {:induction false} RankIndexFound(w: string, k: nat)
    ensures RankIndex(w, k) == -1 <==> k >= |Clean(w)|
  {
    if w != [] {
      var k' := if IsAlnum(w[0]) then k - 1 else k;
      if !(IsAlnum(w[0]) && k == 0) {
        RankIndexFound(w[1..], k');
      }
    }
  }

  /** Index of the highlighted character: the letter or digit of the rank chosen
      by `TargetRank`, or 0 for a token with none. */
  function FocusIndex(w: string): (i: nat)
    ensures i == 0 || i < |w|
  {
    var r := RankIndex(w, TargetRank(|Clean(w)|));
    if r < 0 then 0 else r
  }

  /** The split `processWord` returns. A token with no character at all would
      read `word[0]` as undefined, which the display shows as the empty text. */
  function Decompose(w: string): Parts
  {
    if w == Sentinel then Parts("", " ", "")
    else if w == "" then Parts("", "", "")
    else
      var i := FocusIndex(w);
      Parts(w[..i], [w[i]], w[i + 1..])
  }

  /** The paragraph marker shows as a lone blank; any other token is split into
      three pieces that put it back together, the middle one a single character
      at the focus index. */
  lemma DecomposeSplits(w: string)
    ensures w == Sentinel ==> Decompose(w) == Parts("", " ", "")
    ensures w != Sentinel ==> Decompose(w).left + Decompose(w).focus + Decompose(w).right == w
    ensures w != Sentinel && w != "" ==>
      |Decompose(w).focus| == 1 && |Decompose(w).left| == FocusIndex(w)
  {
  }

  /** A token with a letter or digit is highlighted on one, and on the one of
      the rank `TargetRank` chooses. */
  lemma FocusOnRankedAlnum(w: string)
    requires w != Sentinel && Clean(w) != []
    ensures var p := Decompose(w);
      |p.focus| == 1 && IsAlnum(p.focus[0]) &&
      |Clean(p.left)| == TargetRank(|Clean(w)|) &&
      p.focus[0] == Clean(w)[TargetRank(|Clean(w)|)]
  {
    var k := TargetRank(|Clean(w)|);
    RankIndexFound(w, k);
    RankIndexSound(w, k);
  }

  /** A token without letters or digits is highlighted on its first character. */
  lemma NoAlnumFocusFirst(w: string)
    requires w != Sentinel && w != "" && Clean(w) == []
    ensures FocusIndex(w) == 0
    ensures Decompose(w) == Parts("", [w[0]], w[1..])
  {
    RankIndexFound(w, 0);
  }

  /** `processWord`: the sentinel check, the rank from the stripped length, then
      the counting search over the raw token. */
  method ProcessWord(word: string) returns (p: Parts)
    ensures p == Decompose(word)
  {
    if word == Sentinel {
      return Parts("", " ", "");
    }
    var cleanLen := |Clean(word)|;
    var targetFocusIndex := TargetRank(cleanLen);

    var charCount := 0;
    var originalFocusIndex := -1;
    var i := 0;
    while i < |word|
      invariant 0 <= i <= |word|
      invariant 0 <= charCount <= targetFocusIndex
      invariant originalFocusIndex == -1
      invariant RankIndex(word, targetFocusIndex)
        == Offset(RankIndex(word[i..], targetFocusIndex - charCount), i)
    {
      assert word[i..][1..] == word[i + 1..];
      if IsAlnum(word[i]) {
        if charCount == targetFocusIndex {
          originalFocusIndex := i;
          break;
        }
        charCount := charCount + 1;
      }
      i := i + 1;
    }
    assert originalFocusIndex == RankIndex(word, targetFocusIndex);

    if originalFocusIndex == -1 {
      originalFocusIndex := 0;
    }
    var focus := if originalFocusIndex < |word| then [word[originalFocusIndex]] else "";
    var right := if originalFocusIndex + 1 <= |word| then word[originalFocusIndex + 1..] else "";
    p := Parts(word[..originalFocusIndex], focus, right);
  }
}
