/**
 Two queries against the shipped catalog, worked out to the exact grid they
 produce: a search for "learning" sorted by popularity, and the "Robotics"
 category sorted by name.
 */
module SampleQueries {
  import opened Text
  import opened Tools
  import opened Views
  import opened SampleCatalog

  /** Typing "learning" with "All" selected and the default popularity sort. */
  const LearningQuery: QueryState := QueryState("learning", "", "popularity")

  /** Picking "Robotics" in the sidebar with an empty search, sorted by name. */
  const RoboticsQuery: QueryState := QueryState("", "Robotics", "name")

  /** Every "Machine Learning" tool matches "learning", through its category. */
  lemma LearningMatchesMachineLearning(t: Tool)
    requires t.category == "Machine Learning"
    ensures Matches(LearningQuery, t)
  {
    var hay := ToLower(t.category);
    LearningIsLower();
    assert hay[8..16] == "learning";
    assert OccursAt(hay, "learning", 8);
    IncludesIffOccurs(hay, "learning");
  }

  /** The search term is already lower case. */
  lemma LearningIsLower()
    ensures ToLower("learning") == "learning"
  {
  }

  /** A text that lacks one of the letters of "learning", in either case, does not include it once lower-cased. */
  lemma MissingLetter(s: string, c: char)
    requires c in "learning"
    requires forall i :: 0 <= i < |s| ==> s[i] != c && s[i] as int != c as int - 32
    ensures !Includes(ToLower(s), ToLower("learning"))
  {
    LearningIsLower();
    if Includes(ToLower(s), "learning") {
      IncludedCharsOccur(ToLower(s), "learning");
    }
  }

  /** A text that never has "l" followed by "e", in either case, does not include "learning" once lower-cased. */
  lemma MissingPair(s: string)
    requires forall i :: 0 <= i < |s| - 1 ==> !((s[i] == 'l' || s[i] == 'L') && (s[i + 1] == 'e' || s[i + 1] == 'E'))
    ensures !Includes(ToLower(s), ToLower("learning"))
  {
    LearningIsLower();
    if Includes(ToLower(s), "learning") {
      IncludedCharsOccur(ToLower(s), "learning");
    }
  }

  /*
   The names and categories of the five other tools, one lemma each: each
   lacks a letter of "learning" in either case, except "Natural Language
   Processing", which lacks only the pair "le". Each string gets a lemma of
   its own so that every proof sees a single literal.
   */

  lemma NltkLacksLearning()
    ensures !Includes(ToLower("NLTK"), ToLower("learning"))
  {
    MissingLetter("NLTK", 'e');
  }

  lemma NaturalLanguageProcessingLacksLearning()
    ensures !Includes(ToLower("Natural Language Processing"), ToLower("learning"))
  {
    MissingPair("Natural Language Processing");
  }

  lemma OpenCvLacksLearning()
    ensures !Includes(ToLower("OpenCV"), ToLower("learning"))
  {
    MissingLetter("OpenCV", 'l');
  }

  lemma ComputerVisionLacksLearning()
    ensures !Includes(ToLower("Computer Vision"), ToLower("learning"))
  {
    MissingLetter("Computer Vision", 'l');
  }

  lemma RosLacksLearning()
    ensures !Includes(ToLower("ROS"), ToLower("learning"))
  {
    MissingLetter("ROS", 'l');
  }

  lemma RoboticsLacksLearning()
    ensures !Includes(ToLower("Robotics"), ToLower("learning"))
  {
    MissingLetter("Robotics", 'l');
  }

  lemma PandasLacksLearning()
    ensures !Includes(ToLower("Pandas"), ToLower("learning"))
  {
    MissingLetter("Pandas", 'l');
  }

  lemma DataAnalysisLacksLearning()
    ensures !Includes(ToLower("Data Analysis"), ToLower("learning"))
  {
    MissingLetter("Data Analysis", 'e');
  }

  lemma DeepSpeechLacksLearning()
    ensures !Includes(ToLower("DeepSpeech"), ToLower("learning"))
  {
    MissingLetter("DeepSpeech", 'l');
  }

  lemma SpeechRecognitionLacksLearning()
    ensures !Includes(ToLower("Speech Recognition"), ToLower("learning"))
  {
    MissingLetter("Speech Recognition", 'l');
  }

  /** Exactly the three "Machine Learning" tools, at positions 0, 1 and 7, match the search "learning". */
  lemma LearningMatchesAt(k: int)
    requires 0 <= k < |Catalog|
    ensures Matches(LearningQuery, Catalog[k]) <==> k == 0 || k == 1 || k == 7
  {
    if k == 0 || k == 1 || k == 7 {
      LearningMatchesMachineLearning(Catalog[k]);
    } else if k == 2 {
      NltkLacksLearning();
      NaturalLanguageProcessingLacksLearning();
    } else if k == 3 {
      OpenCvLacksLearning();
      ComputerVisionLacksLearning();
    } else if k == 4 {
      RosLacksLearning();
      RoboticsLacksLearning();
    } else if k == 5 {
      PandasLacksLearning();
      DataAnalysisLacksLearning();
    } else {
      DeepSpeechLacksLearning();
      SpeechRecognitionLacksLearning();
    }
  }

  /** The only catalog entries matching "learning" are at positions 0, 1 and 7. */
  lemma LearningMatchPositions()
    ensures forall k :: 0 <= k < |Catalog| && Matches(LearningQuery, Catalog[k]) ==> k == 0 || k == 7 || k == 1
    ensures Matches(LearningQuery, Catalog[0]) && Matches(LearningQuery, Catalog[7]) && Matches(LearningQuery, Catalog[1])
  {
    forall k | 0 <= k < |Catalog| ensures Matches(LearningQuery, Catalog[k]) <==> k == 0 || k == 1 || k == 7 {
      LearningMatchesAt(k);
    }
  }

  /**
   Searching "learning" sorted by popularity lists TensorFlow (95), then
   Scikit-learn (92), then PyTorch (90).
   */
  lemma LearningByPopularity()
    ensures FilteredTools(Catalog, LearningQuery) == [TensorFlow, ScikitLearn, PyTorch]
  {
    LearningMatchPositions();
    CatalogIdsUnique();
    GridOfThree(Catalog, LearningQuery, 0, 7, 1);
  }

  /**
   When exactly three catalog entries match and the grid is sorted by
   popularity, the grid lists those three, most popular first.
   */
  lemma GridOfThree(tools: seq<Tool>, q: QueryState, ia: int, ib: int, ic: int)
    requires UniqueIds(tools) && q.sortBy == "popularity"
    requires 0 <= ia < |tools| && 0 <= ib < |tools| && 0 <= ic < |tools|
    requires Matches(q, tools[ia]) && Matches(q, tools[ib]) && Matches(q, tools[ic])
    requires forall k :: 0 <= k < |tools| && Matches(q, tools[k]) ==> k == ia || k == ib || k == ic
    requires tools[ia].popularity > tools[ib].popularity > tools[ic].popularity
    ensures FilteredTools(tools, q) == [tools[ia], tools[ib], tools[ic]]
  {
    var r := FilteredTools(tools, q);
    ListedAmong(tools, q, r, ia, ib, ic);
    FilteredToolsUniqueIds(tools, q);
    ByPopularity(tools, q);
    ThreeListed(r, tools[ia], tools[ib], tools[ic]);
  }

  /** A list holding exactly the matching catalog entries holds the three matching ones and nothing else. */
  lemma ListedAmong(tools: seq<Tool>, q: QueryState, r: seq<Tool>, ia: int, ib: int, ic: int)
    requires forall t :: t in r <==> t in tools && Matches(q, t)
    requires 0 <= ia < |tools| && 0 <= ib < |tools| && 0 <= ic < |tools|
    requires Matches(q, tools[ia]) && Matches(q, tools[ib]) && Matches(q, tools[ic])
    requires forall k :: 0 <= k < |tools| && Matches(q, tools[k]) ==> k == ia || k == ib || k == ic
    ensures tools[ia] in r && tools[ib] in r && tools[ic] in r
    ensures forall i :: 0 <= i < |r| ==> r[i] == tools[ia] || r[i] == tools[ib] || r[i] == tools[ic]
  {
    forall i | 0 <= i < |r| ensures r[i] == tools[ia] || r[i] == tools[ib] || r[i] == tools[ic] {
      assert r[i] in r;
      var k :| 0 <= k < |tools| && tools[k] == r[i];
    }
  }

  /** The place of a tool among `a`, `b` and `c`, counted from 0. */
  function Rank(t: Tool, a: Tool, b: Tool): int {
    if t == a then 0 else if t == b then 1 else 2
  }

  /**
   A distinct list that holds `a`, `b` and `c` and nothing else, with
   popularity strictly falling from `a` to `b` to `c` and never rising along
   the list, is exactly `[a, b, c]`.
   */
  lemma ThreeListed(r: seq<Tool>, a: Tool, b: Tool, c: Tool)
    requires a in r && b in r && c in r
    requires forall i :: 0 <= i < |r| ==> r[i] == a || r[i] == b || r[i] == c
    requires forall i, j :: 0 <= i < j < |r| ==> r[i] != r[j]
    requires forall i, j :: 0 <= i < j < |r| ==> r[i].popularity >= r[j].popularity
    requires a.popularity > b.popularity > c.popularity
    ensures r == [a, b, c]
  {
    forall i | 0 <= i < |r| ensures Rank(r[i], a, b) >= i {
      RanksRise(r, a, b, c, i);
    }
    assert |r| <= 3 by {
      assert Rank(r[|r| - 1], a, b) >= |r| - 1;
    }
  }

  /** Along such a list the ranks strictly rise, so the tool at position `i` has rank at least `i`. */
  lemma {:induction false} RanksRise(r: seq<Tool>, a: Tool, b: Tool, c: Tool, i: int)
    requires forall i :: 0 <= i < |r| ==> r[i] == a || r[i] == b || r[i] == c
    requires forall i, j :: 0 <= i < j < |r| ==> r[i] != r[j]
    requires forall i, j :: 0 <= i < j < |r| ==> r[i].popularity >= r[j].popularity
    requires a.popularity > b.popularity > c.popularity
    requires 0 <= i < |r|
    ensures Rank(r[i], a, b) >= i
  {
    if i > 0 {
      RanksRise(r, a, b, c, i - 1);
      assert r[i - 1] != r[i] && r[i - 1].popularity >= r[i].popularity;
    }
  }

  /** Only ROS passes the "Robotics" category filter; the empty search accepts every tool. */
  lemma RoboticsMatchesAt(k: int)
    requires 0 <= k < |Catalog|
    ensures Matches(RoboticsQuery, Catalog[k]) <==> k == 4
  {
    IncludesEmpty(ToLower(Catalog[k].name));
    assert ToLower("") == "";
  }

  /** The only catalog entry in "Robotics" is at position 4. */
  lemma RoboticsMatchPosition()
    ensures forall k :: 0 <= k < |Catalog| && Matches(RoboticsQuery, Catalog[k]) ==> k == 4
    ensures Matches(RoboticsQuery, Catalog[4])
  {
    forall k | 0 <= k < |Catalog| ensures Matches(RoboticsQuery, Catalog[k]) <==> k == 4 {
      RoboticsMatchesAt(k);
    }
  }

  /** Choosing "Robotics" lists ROS alone. */
  lemma RoboticsByName()
    ensures FilteredTools(Catalog, RoboticsQuery) == [Ros]
  {
    RoboticsMatchPosition();
    CatalogIdsUnique();
    GridOfOne(Catalog, RoboticsQuery, 4);
  }

  /** When exactly one catalog entry matches, the grid lists it alone, whatever the sort. */
  lemma GridOfOne(tools: seq<Tool>, q: QueryState, i: int)
    requires UniqueIds(tools)
    requires 0 <= i < |tools| && Matches(q, tools[i])
    requires forall k :: 0 <= k < |tools| && Matches(q, tools[k]) ==> k == i
    ensures FilteredTools(tools, q) == [tools[i]]
  {
    var r := FilteredTools(tools, q);
    FilteredToolsUniqueIds(tools, q);
    OnlyOneListed(tools, q, r, i);
  }

  /** A distinct list holding exactly the matching catalog entries, when only one entry matches, is that entry alone. */
  lemma OnlyOneListed(tools: seq<Tool>, q: QueryState, r: seq<Tool>, i: int)
    requires forall t :: t in r <==> t in tools && Matches(q, t)
    requires forall a, b :: 0 <= a < b < |r| ==> r[a] != r[b]
    requires 0 <= i < |tools| && Matches(q, tools[i])
    requires forall k :: 0 <= k < |tools| && Matches(q, tools[k]) ==> k == i
    ensures r == [tools[i]]
  {
    forall j | 0 <= j < |r| ensures r[j] == tools[i] {
      assert r[j] in r;
      var k :| 0 <= k < |tools| && tools[k] == r[j];
    }
    assert tools[i] in r;
    assert r[0] == r[|r| - 1];
  }
}
