/** `createPrompt`: the user's two scores and their five best-scored activity
    preferences, embedded in the plan request. Preference scores are whole
    numbers here; a preference dictionary is the sequence of its entries in
    the dictionary's iteration order. */
module PlanPrompt {
  import opened Text

  /** One `(key, value)` entry of the preference dictionary. */
  type Preference = (string, int)

  const TOP_COUNT: nat := 5

  /** Scores never increase along `ps`. */
  predicate NonIncreasing(ps: seq<Preference>)
  {
    forall i, j | 0 <= i < j < |ps| :: ps[i].1 >= ps[j].1
  }

  /** `p` placed after every element of the non-increasing `ps` whose score
      is higher, and before the first one that is not. */
  function InsertByScore(p: Preference, ps: seq<Preference>): seq<Preference>
  {
    if ps == [] then [p]
    else if ps[0].1 > p.1 then [ps[0]] + InsertByScore(p, ps[1..])
    else [p] + ps
  }

  /** `sorted { $0.value > $1.value }`: the entries by non-increasing score.
      The order among equal scores is not specified by the source; this one
      keeps the iteration order. */
  function SortByScore(ps: seq<Preference>): seq<Preference>
  {
    if ps == [] then [] else InsertByScore(ps[0], SortByScore(ps[1..]))
  }

  /** No score in `ps` exceeds `bound`. */
  predicate AllAtMost(ps: seq<Preference>, bound: int)
  {
    forall i | 0 <= i < |ps| :: ps[i].1 <= bound
  }

  lemma {:induction false} InsertByScorePermutes(p: Preference, ps: seq<Preference>)
    ensures multiset(InsertByScore(p, ps)) == multiset(ps) + multiset{p}
  {
    if ps != [] && ps[0].1 > p.1 {
      InsertByScorePermutes(p, ps[1..]);
      assert ps == [ps[0]] + ps[1..];
    }
  }

  lemma {:induction false} InsertByScoreAtMost(p: Preference, ps: seq<Preference>, bound: int)
    requires AllAtMost(ps, bound) && p.1 <= bound
    ensures AllAtMost(InsertByScore(p, ps), bound)
  {
    if ps != [] && ps[0].1 > p.1 {
      InsertByScoreAtMost(p, ps[1..], bound);
      var r := InsertByScore(p, ps);
      assert r == [ps[0]] + InsertByScore(p, ps[1..]);
    }
  }

  /** A head no lower than the rest, before a non-increasing rest. */
  lemma ConsNonIncreasing(x: Preference, ps: seq<Preference>)
    requires NonIncreasing(ps) && AllAtMost(ps, x.1)
    ensures NonIncreasing([x] + ps)
  {
    var r := [x] + ps;
    forall i, j | 0 <= i < j < |r| ensures r[i].1 >= r[j].1 {
      assert r[j] == ps[j - 1];
      if i > 0 {
        assert r[i] == ps[i - 1];
      }
    }
  }

  lemma {:induction false} InsertByScoreSorted(p: Preference, ps: seq<Preference>)
    requires NonIncreasing(ps)
    ensures NonIncreasing(InsertByScore(p, ps))
  {
    if ps == [] {
    } else if ps[0].1 > p.1 {
      var tail := ps[1..];
      assert NonIncreasing(tail) by {
        forall i, j | 0 <= i < j < |tail| ensures tail[i].1 >= tail[j].1 {
          assert tail[i] == ps[i + 1] && tail[j] == ps[j + 1];
        }
      }
      assert AllAtMost(tail, ps[0].1) by {
        forall i | 0 <= i < |tail| ensures tail[i].1 <= ps[0].1 {
          assert tail[i] == ps[i + 1];
        }
      }
      InsertByScoreSorted(p, tail);
      InsertByScoreAtMost(p, tail, ps[0].1);
      ConsNonIncreasing(ps[0], InsertByScore(p, tail));
    } else {
      assert AllAtMost(ps, p.1) by {
        forall i | 0 <= i < |ps| ensures ps[i].1 <= p.1 {
          if i > 0 {
            assert ps[0].1 >= ps[i].1;
          }
        }
      }
      ConsNonIncreasing(p, ps);
    }
  }

  /** The sorted entries are a permutation of the entries, in non-increasing
      score order. */
  lemma {:induction false} SortByScoreSorted(ps: seq<Preference>)
    ensures NonIncreasing(SortByScore(ps))
    ensures multiset(SortByScore(ps)) == multiset(ps)
  {
    if ps != [] {
      SortByScoreSorted(ps[1..]);
      InsertByScoreSorted(ps[0], SortByScore(ps[1..]));
      InsertByScorePermutes(ps[0], SortByScore(ps[1..]));
      assert ps == [ps[0]] + ps[1..];
    }
  }

  lemma PrefixNonIncreasing(sorted: seq<Preference>, n: nat)
    requires NonIncreasing(sorted) && n <= |sorted|
    ensures NonIncreasing(sorted[..n])
  {
    var top := sorted[..n];
    forall i, j | 0 <= i < j < |top| ensures top[i].1 >= top[j].1 {
      assert top[i] == sorted[i] && top[j] == sorted[j];
    }
  }

  /** Taking a prefix out of a list's multiset leaves the suffix's. */
  lemma PrefixMultiset(s: seq<Preference>, n: nat)
    requires n <= |s|
    ensures multiset(s[..n]) <= multiset(s)
    ensures multiset(s) - multiset(s[..n]) == multiset(s[n..])
  {
    assert s == s[..n] + s[n..];
  }

  /** In a non-increasing list, nothing after position `n` scores above
      anything before it. */
  lemma PrefixDominates(sorted: seq<Preference>, n: nat)
    requires NonIncreasing(sorted) && n <= |sorted|
    ensures forall p: Preference, t: Preference | p in multiset(sorted[n..]) && t in sorted[..n] :: p.1 <= t.1
  {
    var top, rest := sorted[..n], sorted[n..];
    forall p: Preference, t: Preference | p in multiset(rest) && t in top ensures p.1 <= t.1 {
      var i :| 0 <= i < |top| && top[i] == t;
      var j :| 0 <= j < |rest| && rest[j] == p;
      assert sorted[i] == t && sorted[n + j] == p;
    }
  }

  /** The first `n` entries of a sorted permutation of `ps` are sorted, are
      entries of `ps`, and score no lower than any entry left out. */
  lemma SortedPrefixIsTop(ps: seq<Preference>, sorted: seq<Preference>, n: nat)
    requires NonIncreasing(sorted) && multiset(sorted) == multiset(ps) && n <= |sorted|
    ensures |sorted| == |ps|
    ensures NonIncreasing(sorted[..n])
    ensures multiset(sorted[..n]) <= multiset(ps)
    ensures forall p: Preference, t: Preference | p in multiset(ps) - multiset(sorted[..n]) && t in sorted[..n] :: p.1 <= t.1
  {
    assert |multiset(sorted)| == |multiset(ps)|;
    PrefixNonIncreasing(sorted, n);
    PrefixMultiset(sorted, n);
    PrefixDominates(sorted, n);
  }

  /** `.prefix(5)` of the sorted entries: at most five preferences, the
      best-scored ones, best first. */
  function TopPreferences(ps: seq<Preference>): (top: seq<Preference>)
    ensures |top| == if |ps| < TOP_COUNT then |ps| else TOP_COUNT
    ensures NonIncreasing(top)
    ensures multiset(top) <= multiset(ps)
    ensures forall p, t | p in multiset(ps) - multiset(top) && t in top :: p.1 <= t.1
  {
    SortByScoreSorted(ps);
    var sorted := SortByScore(ps);
    var n := if |ps| < TOP_COUNT then |ps| else TOP_COUNT;
    SortedPrefixIsTop(ps, sorted, n);
    sorted[..n]
  }

  /** `"key: value%"` for one preference; a whole-number score prints with
      one decimal as `"value.0"`. */
  function PreferenceText(p: Preference): string
  {
    p.0 + ": " + IntToString(p.1) + ".0%"
  }

  /** The preferences, formatted and joined with `", "`. */
  function PreferencesString(top: seq<Preference>): string
  {
    Join(seq(|top|, i requires 0 <= i < |top| => PreferenceText(top[i])), ", ")
  }

  /** The prose around the data lines; its wording does not matter to the
      model, only that it is fixed. */
  const PROMPT_OPENING: string :=
    "As Bryan, a compassionate and caring wellness guide, create a personalized 14-day wellness plan for a user with the following characteristics:\n\n"
  const PROMPT_GUIDANCE: string :=
    "\nCreate a plan that addresses the user's anxiety and depression levels while incorporating their preferred activities."

  function GadLine(gadScore: int): string
  {
    "GAD-7 score: " + IntToString(gadScore) + "\n"
  }

  function PhqLine(phqScore: int): string
  {
    "PHQ-9 score: " + IntToString(phqScore) + "\n"
  }

  function PreferencesLine(preferences: seq<Preference>): string
  {
    "Top 5 activity preferences: " + PreferencesString(TopPreferences(preferences)) + "\n"
  }

  /** `createPrompt(gadScore:phqScore:preferences:)`: the opening, one line
      per score, the line of top preferences, then the guidance. */
  function CreatePrompt(gadScore: int, phqScore: int, preferences: seq<Preference>): string
  {
    PROMPT_OPENING + GadLine(gadScore) + PhqLine(phqScore) + PreferencesLine(preferences) + PROMPT_GUIDANCE
  }

  /** Each middle part of a five-part text occurs in it. */
  lemma ContainsMiddleParts(o: string, g: string, p: string, t: string, z: string)
    ensures Contains(o + g + p + t + z, g)
    ensures Contains(o + g + p + t + z, p)
    ensures Contains(o + g + p + t + z, t)
  {
    var text := o + g + p + t + z;
    assert text[|o|..|o| + |g|] == g;
    assert OccursAt(text, g, |o|);
    assert text[|o + g|..|o + g| + |p|] == p;
    assert OccursAt(text, p, |o + g|);
    assert text[|o + g + p|..|o + g + p| + |t|] == t;
    assert OccursAt(text, t, |o + g + p|);
  }

  /** The prompt carries a line for each score and the line of the top
      preferences. */
  lemma PromptMentionsScores(gadScore: int, phqScore: int, preferences: seq<Preference>)
    ensures Contains(CreatePrompt(gadScore, phqScore, preferences), GadLine(gadScore))
    ensures Contains(CreatePrompt(gadScore, phqScore, preferences), PhqLine(phqScore))
    ensures Contains(CreatePrompt(gadScore, phqScore, preferences), PreferencesLine(preferences))
  {
    ContainsMiddleParts(PROMPT_OPENING, GadLine(gadScore), PhqLine(phqScore), PreferencesLine(preferences), PROMPT_GUIDANCE);
  }
}
