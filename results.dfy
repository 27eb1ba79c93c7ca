/** The results screen of the game (`showResults` in script.js): how often
    each framework was chosen, which framework dominates, which frameworks
    share the highest count, and whether the summary is the "balanced"
    message or the message of one framework. */
module Results {
  import opened Frameworks

  // ---------------------------------------------------------------------
  // Counting
  // ---------------------------------------------------------------------

  /** Number of times `f` was chosen in `choices`. */
  function Count(choices: seq<Framework>, f: Framework): (n: nat)
    ensures n <= |choices|
  {
    if choices == [] then 0
    else (if choices[0] == f then 1 else 0) + Count(choices[1..], f)
  }

  /** The `counts` object: one tally per framework. */
  datatype Counts = Counts(deontology: nat, consequentialism: nat, virtue: nat)
  {
    function Get(f: Framework): nat
    {
      match f
      case Deontology => deontology
      case Consequentialism => consequentialism
      case Virtue => virtue
    }

    /** `counts[choice]++`: bumps the tally of `f` and of no other framework. */
    function Increment(f: Framework): (c: Counts)
      ensures c.Get(f) == Get(f) + 1
      ensures forall g :: g != f ==> c.Get(g) == Get(g)
    {
      match f
      case Deontology => this.(deontology := deontology + 1)
      case Consequentialism => this.(consequentialism := consequentialism + 1)
      case Virtue => this.(virtue := virtue + 1)
    }

    function Total(): nat
    {
      deontology + consequentialism + virtue
    }
  }

  /** The tallies a list of choices should produce. */
  function CountsOf(choices: seq<Framework>): Counts
  {
    Counts(Count(choices, Deontology), Count(choices, Consequentialism), Count(choices, Virtue))
  }

  /** Appending a choice adds one to its own framework's count only. */
  lemma {:induction false} CountAppend(choices: seq<Framework>, x: Framework, f: Framework)
    ensures Count(choices + [x], f) == Count(choices, f) + (if x == f then 1 else 0)
  {
    if choices == [] {
      assert choices + [x] == [x];
    } else {
      assert (choices + [x])[1..] == choices[1..] + [x];
      CountAppend(choices[1..], x, f);
    }
  }

  /** Recording one more choice increments exactly that framework's tally. */
  lemma RecordingIncrementsOwnCount(choices: seq<Framework>, f: Framework)
    ensures CountsOf(choices + [f]) == CountsOf(choices).Increment(f)
  {
    CountAppend(choices, f, Deontology);
    CountAppend(choices, f, Consequentialism);
    CountAppend(choices, f, Virtue);
  }

  /** The three tallies add up to the number of choices made. */
  lemma {:induction false} CountsSumToLength(choices: seq<Framework>)
    ensures CountsOf(choices).Total() == |choices|
  {
    if choices != [] {
      CountsSumToLength(choices[1..]);
    }
  }

  /** A tally is the multiplicity of the framework in the multiset of choices. */
  lemma {:induction false} CountIsMultiplicity(choices: seq<Framework>, f: Framework)
    ensures Count(choices, f) == multiset(choices)[f]
  {
    if choices != [] {
      assert choices == [choices[0]] + choices[1..];
      assert multiset(choices) == multiset{choices[0]} + multiset(choices[1..]);
      CountIsMultiplicity(choices[1..], f);
    }
  }

  /** The `forEach` loop of `showResults`: start every tally at 0 and bump
      the tally of each recorded choice in turn. */
  method Tally(choices: seq<Framework>) returns (counts: Counts)
    ensures counts == CountsOf(choices)
  {
    counts := Counts(0, 0, 0);
    for i := 0 to |choices|
      invariant counts == CountsOf(choices[..i])
    {
      assert choices[..i + 1] == choices[..i] + [choices[i]];
      RecordingIncrementsOwnCount(choices[..i], choices[i]);
      counts := counts.Increment(choices[i]);
    }
    assert choices[..|choices|] == choices;
  }

  // ---------------------------------------------------------------------
  // Dominant framework
  // ---------------------------------------------------------------------

  /** The highest of the three tallies. */
  function MaxCount(c: Counts): (m: nat)
    ensures forall f :: c.Get(f) <= m
    ensures exists f :: c.Get(f) == m
  {
    var first := if c.deontology >= c.consequentialism then c.deontology else c.consequentialism;
    var m := if first >= c.virtue then first else c.virtue;
    assert c.Get(Deontology) == c.deontology && c.Get(Consequentialism) == c.consequentialism;
    assert c.Get(Virtue) == c.virtue;
    m
  }

  /** The first framework, in declaration order, whose tally is the highest. */
  function FirstMax(c: Counts): (f: Framework)
    ensures c.Get(f) == MaxCount(c)
    ensures forall g :: Rank(g) < Rank(f) ==> c.Get(g) < MaxCount(c)
  {
    if c.deontology == MaxCount(c) then Deontology
    else if c.consequentialism == MaxCount(c) then Consequentialism
    else Virtue
  }

  /** The running maximum of `showResults`: start with deontology and let a
      later framework take over only on a strictly greater tally, so that on
      a tie the earlier framework stays dominant. */
  method Dominant(counts: Counts) returns (dominant: Framework, maxCount: nat)
    ensures maxCount == MaxCount(counts)
    ensures dominant == FirstMax(counts)
  {
    dominant, maxCount := Deontology, counts.deontology;
    if counts.consequentialism > maxCount {
      dominant, maxCount := Consequentialism, counts.consequentialism;
    }
    if counts.virtue > maxCount {
      dominant, maxCount := Virtue, counts.virtue;
    }
  }

  // ---------------------------------------------------------------------
  // Ties
  // ---------------------------------------------------------------------

  /** The frameworks of `fs`, in the order of `fs`, whose tally equals `m`. */
  function Reaching(fs: seq<Framework>, c: Counts, m: nat): (r: seq<Framework>)
    ensures forall f :: f in r <==> f in fs && c.Get(f) == m
    ensures |r| <= |fs|
  {
    if fs == [] then []
    else (if c.Get(fs[0]) == m then [fs[0]] else []) + Reaching(fs[1..], c, m)
  }

  /** Filtering keeps the relative order of the filtered list. */
  lemma {:induction false} ReachingKeepsOrder(fs: seq<Framework>, c: Counts, m: nat)
    requires InDeclarationOrder(fs)
    ensures InDeclarationOrder(Reaching(fs, c, m))
  {
    if fs != [] {
      ReachingKeepsOrder(fs[1..], c, m);
      var rest := Reaching(fs[1..], c, m);
      forall j | 0 <= j < |rest|
        ensures Rank(fs[0]) < Rank(rest[j])
      {
        assert rest[j] in fs[1..];
        var k :| 0 <= k < |fs[1..]| && fs[1..][k] == rest[j];
        assert fs[k + 1] == rest[j];
      }
    }
  }

  /** `topFrameworks`: every framework whose tally reaches the maximum. */
  function TopFrameworksOf(c: Counts): seq<Framework>
  {
    Reaching(AllFrameworks, c, MaxCount(c))
  }

  /** The `push` block of `showResults`: test the frameworks in declaration
      order against `maxCount` and collect those that reach it. */
  method TopFrameworks(counts: Counts, maxCount: nat) returns (top: seq<Framework>)
    ensures top == Reaching(AllFrameworks, counts, maxCount)
  {
    top := [];
    if counts.deontology == maxCount {
      top := top + [Deontology];
    }
    if counts.consequentialism == maxCount {
      top := top + [Consequentialism];
    }
    if counts.virtue == maxCount {
      top := top + [Virtue];
    }
    assert AllFrameworks[1..] == [Consequentialism, Virtue] && [Consequentialism, Virtue][1..] == [Virtue];
    assert Reaching([Virtue], counts, maxCount) == if counts.virtue == maxCount then [Virtue] else [];
    assert Reaching([Consequentialism, Virtue], counts, maxCount)
        == (if counts.consequentialism == maxCount then [Consequentialism] else [])
         + Reaching([Virtue], counts, maxCount);
  }

  /** The tie list holds exactly the frameworks with the highest tally, in
      declaration order; it is never empty and starts with the dominant
      framework, so a one-element list is the dominant framework alone. */
  lemma TopFrameworksAreTheArgmax(c: Counts)
    ensures forall f :: f in TopFrameworksOf(c) <==> c.Get(f) == MaxCount(c)
    ensures InDeclarationOrder(TopFrameworksOf(c))
    ensures |TopFrameworksOf(c)| >= 1 && TopFrameworksOf(c)[0] == FirstMax(c)
    ensures |TopFrameworksOf(c)| == 1 ==> TopFrameworksOf(c) == [FirstMax(c)]
  {
    var top := TopFrameworksOf(c);
    assert forall f :: f in AllFrameworks by {
      forall f ensures f in AllFrameworks { assert AllFrameworks[Rank(f)] == f; }
    }
    ReachingKeepsOrder(AllFrameworks, c, MaxCount(c));
    var d := FirstMax(c);
    assert d in top;
    assert top[0] in top;
  }

  // ---------------------------------------------------------------------
  // Summary
  // ---------------------------------------------------------------------

  /** Which summary message the results screen shows; the texts themselves
      are static content and stay out of the model. */
  datatype Summary = Balanced | Leaning(framework: Framework)

  /** The balanced message when several frameworks share the top tally,
      otherwise the message of the dominant framework. */
  function SummaryOf(c: Counts): Summary
  {
    if |TopFrameworksOf(c)| > 1 then Balanced else Leaning(FirstMax(c))
  }

  /** The summary is the balanced message exactly when two different
      frameworks share the highest tally. */
  lemma BalancedIffTie(c: Counts)
    ensures SummaryOf(c) == Balanced
        <==> exists f, g :: f != g && c.Get(f) == MaxCount(c) && c.Get(g) == MaxCount(c)
  {
    var top := TopFrameworksOf(c);
    TopFrameworksAreTheArgmax(c);
    if |top| > 1 {
      assert Rank(top[0]) < Rank(top[1]);
      assert top[0] in top && top[1] in top;
      assert top[0] != top[1] && c.Get(top[0]) == MaxCount(c) && c.Get(top[1]) == MaxCount(c);
    } else {
      forall f, g | c.Get(f) == MaxCount(c) && c.Get(g) == MaxCount(c)
        ensures f == g
      {
        assert f in top && g in top;
      }
    }
  }

  /** The summary names framework `f` exactly when `f` alone has the
      highest tally. */
  lemma LeaningIffUniqueMax(c: Counts, f: Framework)
    ensures SummaryOf(c) == Leaning(f) <==> forall g :: g != f ==> c.Get(g) < c.Get(f)
  {
    BalancedIffTie(c);
    if SummaryOf(c) == Leaning(f) {
      assert f == FirstMax(c);
      forall g | g != f
        ensures c.Get(g) < c.Get(f)
      {
      }
    }
  }

  /** Three deontology, three consequentialism and one virtue choice tie
      the first two frameworks, which gives the balanced summary. */
  lemma TieGivesBalanced()
    ensures var r := ReportOf([Deontology, Consequentialism, Deontology, Virtue,
                               Consequentialism, Deontology, Consequentialism]);
            r.counts == Counts(3, 3, 1) && r.summary == Balanced
  {
  }

  /** Five deontology choices against one of each other framework: deontology
      alone dominates and its own summary is shown. */
  lemma SingleDominance()
    ensures var r := ReportOf([Deontology, Virtue, Deontology, Deontology,
                               Consequentialism, Deontology, Deontology]);
            r.counts == Counts(5, 1, 1) && r.summary == Leaning(Deontology)
  {
  }

  // ---------------------------------------------------------------------
  // showResults
  // ---------------------------------------------------------------------

  /** What the results screen presents: the three tallies and the summary. */
  datatype Report = Report(counts: Counts, summary: Summary)

  function ReportOf(choices: seq<Framework>): Report
  {
    var c := CountsOf(choices);
    Report(c, SummaryOf(c))
  }

  /** `showResults` without its DOM updates: tally, running maximum, tie
      list, and the choice of summary message. */
  method ShowResults(choices: seq<Framework>) returns (report: Report)
    ensures report == ReportOf(choices)
    ensures report.counts.Total() == |choices|
  {
    var counts := Tally(choices);
    var dominant, maxCount := Dominant(counts);
    var top := TopFrameworks(counts, maxCount);
    var summary := if |top| > 1 then Balanced else Leaning(dominant);
    report := Report(counts, summary);
    CountsSumToLength(choices);
  }
}
