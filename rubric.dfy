/** The interview rubric: weighted checklist items scored from the tags a
    session's turns produced. */
module Rubric {
  import opened Text

  /** A checklist item: the tag that earns it, its weight and its label. */
  datatype Item = Item(key: string, weight: real, caption: string)

  /** The per-item line of a score report. */
  datatype Detail = Detail(item: string, caption: string, hit: bool, points: real, max: real)

  /** A score report; `percent` is the share of the maximum earned. */
  datatype Score = Score(score: real, max: real, percent: real, details: seq<Detail>)

  const RUBRIC_ITEMS: seq<Item> := [
    Item("asked_onset", 1.0, "Asked onset/timeline"),
    Item("asked_mechanism", 1.0, "Clarified mechanism/context"),
    Item("asked_location", 0.5, "Clarified pain location"),
    Item("asked_severity", 0.5, "Quantified severity (NRS)"),
    Item("asked_aggravators", 1.0, "Identified aggravating factors"),
    Item("asked_easers", 1.0, "Identified easing factors"),
    Item("asked_24h_pattern", 0.5, "Explored 24-hour pattern"),
    Item("screened_red_flags", 2.0, "Screened red flags"),
    Item("asked_work_status", 0.5, "Checked work/role demands"),
    Item("asked_sdoH_transport", 0.5, "Checked transport/access"),
    Item("asked_goals", 1.0, "Established patient goals"),
    Item("asked_exam", 1.5, "Discussed or referenced exam findings")
  ]

  /** Every weight is non-negative. */
  predicate WeightsNonNegative(items: seq<Item>)
  {
    forall k | 0 <= k < |items| :: items[k].weight >= 0.0
  }

  /** The keys of the items. */
  function Keys(items: seq<Item>): set<string>
  {
    set k | 0 <= k < |items| :: items[k].key
  }

  /** The points one item earns. */
  function Points(it: Item, tags: set<string>): real
  {
    if it.key in tags then it.weight else 0.0
  }

  /** The points the items earn together. */
  function Total(items: seq<Item>, tags: set<string>): real
  {
    if items == [] then 0.0
    else Total(items[..|items| - 1], tags) + Points(items[|items| - 1], tags)
  }

  /** The largest total: every item's weight. */
  function MaxTotal(items: seq<Item>): real
  {
    if items == [] then 0.0
    else MaxTotal(items[..|items| - 1]) + items[|items| - 1].weight
  }

  /** The report lines of the items, in order. */
  function Details(items: seq<Item>, tags: set<string>): seq<Detail>
  {
    if items == [] then []
    else
      var it := items[|items| - 1];
      Details(items[..|items| - 1], tags) + [Detail(it.key, it.caption, it.key in tags, Points(it, tags), it.weight)]
  }

  /** The distinct tags of a session. */
  function TagSet(allTags: seq<string>): set<string>
  {
    set t | t in allTags
  }

  /** score_from_tags: the earned points, the maximum, the share earned and
      one report line per item. */
  method ScoreFromTags(allTags: seq<string>) returns (result: Score)
    ensures result.score == Total(RUBRIC_ITEMS, TagSet(allTags))
    ensures result.max == MaxTotal(RUBRIC_ITEMS) == 11.0
    ensures result.percent == 100.0 * result.score / result.max
    ensures result.details == Details(RUBRIC_ITEMS, TagSet(allTags))
  {
    var tagset := TagSet(allTags);
    var total := 0.0;
    var details: seq<Detail> := [];
    for i := 0 to |RUBRIC_ITEMS|
      invariant total == Total(RUBRIC_ITEMS[..i], tagset)
      invariant details == Details(RUBRIC_ITEMS[..i], tagset)
    {
      var it := RUBRIC_ITEMS[i];
      var hit := it.key in tagset;
      var pts := if hit then it.weight else 0.0;
      total := total + pts;
      details := details + [Detail(it.key, it.caption, hit, pts, it.weight)];
      assert RUBRIC_ITEMS[..i + 1][..i] == RUBRIC_ITEMS[..i];
    }
    assert RUBRIC_ITEMS[..|RUBRIC_ITEMS|] == RUBRIC_ITEMS;
    MaxTotalOfRubric();
    var maxTotal := MaxTotal(RUBRIC_ITEMS);
    return Score(total, maxTotal, 100.0 * total / maxTotal, details);
  }

  /** The rubric is worth 11 points. */
  lemma MaxTotalOfRubric()
    ensures MaxTotal(RUBRIC_ITEMS) == 11.0
    ensures WeightsNonNegative(RUBRIC_ITEMS)
  {
    var r := RUBRIC_ITEMS;
    assert MaxTotal(r[..0]) == 0.0;
    assert r[..1][..0] == r[..0];
    assert MaxTotal(r[..1]) == 1.0;
    assert r[..2][..1] == r[..1];
    assert MaxTotal(r[..2]) == 2.0;
    assert r[..3][..2] == r[..2];
    assert MaxTotal(r[..3]) == 2.5;
    assert r[..4][..3] == r[..3];
    assert MaxTotal(r[..4]) == 3.0;
    assert r[..5][..4] == r[..4];
    assert MaxTotal(r[..5]) == 4.0;
    assert r[..6][..5] == r[..5];
    assert MaxTotal(r[..6]) == 5.0;
    assert r[..7][..6] == r[..6];
    assert MaxTotal(r[..7]) == 5.5;
    assert r[..8][..7] == r[..7];
    assert MaxTotal(r[..8]) == 7.5;
    assert r[..9][..8] == r[..8];
    assert MaxTotal(r[..9]) == 8.0;
    assert r[..10][..9] == r[..9];
    assert MaxTotal(r[..10]) == 8.5;
    assert r[..11][..10] == r[..10];
    assert MaxTotal(r[..11]) == 9.5;
    assert r[..12][..11] == r[..11];
    assert MaxTotal(r[..12]) == 11.0;
    assert r[..12] == r;
  }

  /** Every key of the rubric names what was asked or screened. */
  lemma KeyPrefix(key: string)
    requires key in Keys(RUBRIC_ITEMS)
    ensures StartsWith(key, "asked_") || StartsWith(key, "screened_")
  {
    var k :| 0 <= k < |RUBRIC_ITEMS| && RUBRIC_ITEMS[k].key == key;
  }

  /** With non-negative weights the total lies between 0 and the maximum. */
  lemma {:induction false} TotalBounds(items: seq<Item>, tags: set<string>)
    requires WeightsNonNegative(items)
    ensures 0.0 <= Total(items, tags) <= MaxTotal(items)
  {
    if items != [] {
      TotalBounds(items[..|items| - 1], tags);
    }
  }

  /** Asking more never lowers the score. */
  lemma {:induction false} TotalMonotone(items: seq<Item>, tags: set<string>, more: set<string>)
    requires WeightsNonNegative(items) && tags <= more
    ensures Total(items, tags) <= Total(items, more)
  {
    if items != [] {
      TotalMonotone(items[..|items| - 1], tags, more);
    }
  }

  /** Only the items' own keys count: other tags change nothing. */
  lemma {:induction false} TotalIgnoresForeignTags(items: seq<Item>, tags: set<string>)
    ensures Total(items, tags) == Total(items, tags * Keys(items))
  {
    if items != [] {
      var front := items[..|items| - 1];
      TotalIgnoresForeignTags(front, tags);
      TotalDependsOnKeys(front, tags * Keys(front), tags * Keys(items));
    }
  }

  /** Two tag sets that agree on the items' keys score alike. */
  lemma {:induction false} TotalDependsOnKeys(items: seq<Item>, tags: set<string>, other: set<string>)
    requires tags * Keys(items) == other * Keys(items)
    ensures Total(items, tags) == Total(items, other)
  {
    if items != [] {
      var front := items[..|items| - 1];
      var last := items[|items| - 1];
      assert last.key in Keys(items);
      assert Keys(front) <= Keys(items) by {
        forall x | x in Keys(front) ensures x in Keys(items) {
          var k :| 0 <= k < |front| && front[k].key == x;
          assert items[k].key == x;
        }
      }
      assert tags * Keys(front) == other * Keys(front) by {
        forall x | x in Keys(front) ensures x in tags <==> x in other {
          assert x in tags * Keys(items) <==> x in other * Keys(items);
        }
      }
      assert last.key in tags <==> last.key in other by {
        assert last.key in tags * Keys(items) <==> last.key in other * Keys(items);
      }
      TotalDependsOnKeys(front, tags, other);
    }
  }

  /** A session with none of the rubric's tags scores 0. */
  lemma NoRubricTagsScoreZero(items: seq<Item>, tags: set<string>)
    requires tags * Keys(items) == {}
    ensures Total(items, tags) == 0.0
  {
    TotalDependsOnKeys(items, tags, {});
    TotalOfNothing(items);
  }

  lemma {:induction false} TotalOfNothing(items: seq<Item>)
    ensures Total(items, {}) == 0.0
  {
    if items != [] {
      TotalOfNothing(items[..|items| - 1]);
    }
  }

  /** A session that earned every item scores the maximum. */
  lemma {:induction false} AllKeysScoreMax(items: seq<Item>, tags: set<string>)
    requires Keys(items) <= tags
    ensures Total(items, tags) == MaxTotal(items)
  {
    if items != [] {
      var front := items[..|items| - 1];
      assert items[|items| - 1].key in Keys(items);
      assert Keys(front) <= Keys(items) by {
        forall x | x in Keys(front) ensures x in Keys(items) {
          var k :| 0 <= k < |front| && front[k].key == x;
          assert items[k].key == x;
        }
      }
      AllKeysScoreMax(front, tags);
    }
  }

  /** One report line per item, each stating whether its key was among the
      tags and the points that earned. */
  lemma {:induction false} DetailsSpec(items: seq<Item>, tags: set<string>)
    ensures |Details(items, tags)| == |items|
    ensures forall k | 0 <= k < |items| ::
              Details(items, tags)[k].item == items[k].key &&
              Details(items, tags)[k].hit == (items[k].key in tags) &&
              Details(items, tags)[k].points == (if items[k].key in tags then items[k].weight else 0.0) &&
              Details(items, tags)[k].max == items[k].weight
  {
    if items != [] {
      DetailsSpec(items[..|items| - 1], tags);
    }
  }

  /** The score report of a session: the share earned lies in [0, 100]; it
      is 0 without rubric tags and 100 with all of them. */
  lemma ScoreReportBounds(allTags: seq<string>)
    ensures MaxTotal(RUBRIC_ITEMS) == 11.0
    ensures 0.0 <= Total(RUBRIC_ITEMS, TagSet(allTags)) <= 11.0
    ensures 0.0 <= 100.0 * Total(RUBRIC_ITEMS, TagSet(allTags)) / MaxTotal(RUBRIC_ITEMS) <= 100.0
    ensures TagSet(allTags) * Keys(RUBRIC_ITEMS) == {} ==> Total(RUBRIC_ITEMS, TagSet(allTags)) == 0.0
    ensures Keys(RUBRIC_ITEMS) <= TagSet(allTags) ==>
              100.0 * Total(RUBRIC_ITEMS, TagSet(allTags)) / MaxTotal(RUBRIC_ITEMS) == 100.0
  {
    MaxTotalOfRubric();
    TotalBounds(RUBRIC_ITEMS, TagSet(allTags));
    if TagSet(allTags) * Keys(RUBRIC_ITEMS) == {} {
      NoRubricTagsScoreZero(RUBRIC_ITEMS, TagSet(allTags));
    }
    if Keys(RUBRIC_ITEMS) <= TagSet(allTags) {
      AllKeysScoreMax(RUBRIC_ITEMS, TagSet(allTags));
    }
  }
}
