/**
 * The depression-indicator extractor of ai_service.py
 * (`VietnameseNLPProcessor.extract_depression_indicators`). Each of the eight
 * categories is a regular expression that is a plain alternation of literal
 * phrases, so `re.search(pattern, text.lower())` succeeds exactly when one of
 * the phrases is a substring of the lower-cased text.
 */
module Indicators {
  import opened Text

  /** One entry of the `patterns` dictionary: a category name and its alternatives. */
  datatype Category = Category(name: string, phrases: seq<string>)

  /** The `patterns` dictionary, in declaration (and so iteration) order. */
  const Categories: seq<Category> := [
    Category("sleep_problems", ["không ngủ được", "mất ngủ", "ngủ nhiều", "ngủ không ngon"]),
    Category("appetite_changes", ["không ăn được", "chán ăn", "ăn nhiều", "không có cảm giác đói"]),
    Category("energy_loss", ["mệt mỏi", "kiệt sức", "không có năng lượng", "lười biếng"]),
    Category("concentration_issues", ["không tập trung", "không thể suy nghĩ", "trí nhớ kém"]),
    Category("hopelessness", ["tuyệt vọng", "không có hy vọng", "cuộc sống vô nghĩa"]),
    Category("guilt_shame", ["tự trách", "cảm thấy tội lỗi", "xấu hổ", "tự ti"]),
    Category("social_withdrawal", ["cô đơn", "không muốn gặp ai", "tránh mọi người"]),
    Category("suicidal_thoughts", ["tự tử", "chết đi", "không muốn sống", "kết thúc cuộc đời"])
  ]

  /** The category names, in the order the dictionary declares them. */
  function Names(cats: seq<Category>): seq<string>
  {
    seq(|cats|, i requires 0 <= i < |cats| => cats[i].name)
  }

  /** No name appears twice. */
  predicate Distinct(s: seq<string>)
  {
    forall i, j :: 0 <= i < j < |s| ==> s[i] != s[j]
  }

  /** `a` is `b` with some elements left out and the rest kept in order. */
  predicate IsSubsequence(a: seq<string>, b: seq<string>)
    decreases |b|
  {
    if a == [] then true
    else if b == [] then false
    else if a[|a| - 1] == b[|b| - 1] then IsSubsequence(a[..|a| - 1], b[..|b| - 1])
    else IsSubsequence(a, b[..|b| - 1])
  }

  /** The alternation `(p1|p2|...)` matches somewhere in `t`: one of the phrases occurs in `t`. */
  function AnyOccurs(phrases: seq<string>, t: string): (found: bool)
    ensures found <==> exists i :: 0 <= i < |phrases| && Occurs(phrases[i], t)
  {
    if phrases == [] then false
    else
      assert forall i :: 1 <= i < |phrases| ==> phrases[i] == phrases[1..][i - 1];
      Occurs(phrases[0], t) || AnyOccurs(phrases[1..], t)
  }

  /** The names of the categories whose pattern matches `t`, in category order. */
  function Matching(cats: seq<Category>, t: string): (names: seq<string>)
    ensures |names| <= |cats|
  {
    if cats == [] then []
    else
      var last := cats[|cats| - 1];
      Matching(cats[..|cats| - 1], t) + (if AnyOccurs(last.phrases, t) then [last.name] else [])
  }

  /**
   * `extract_depression_indicators(text)`: walk the categories in order and
   * append the name of every category whose pattern matches the lower-cased text.
   */
  method ExtractIndicators(text: string) returns (indicators: seq<string>)
    ensures indicators == Matching(Categories, Lower(text))
  {
    var t := Lower(text);
    indicators := [];
    for i := 0 to |Categories|
      invariant indicators == Matching(Categories[..i], t)
    {
      assert Categories[..i + 1][..i] == Categories[..i];
      if AnyOccurs(Categories[i].phrases, t) {
        indicators := indicators + [Categories[i].name];
      }
    }
    assert Categories[..|Categories|] == Categories;
  }

  /** A category name is reported exactly when that category's pattern matches. */
  lemma {:induction false} MatchingIff(cats: seq<Category>, t: string, n: string)
    ensures n in Matching(cats, t) <==>
      exists k :: 0 <= k < |cats| && cats[k].name == n && AnyOccurs(cats[k].phrases, t)
    decreases |cats|
  {
    if cats != [] {
      var init := cats[..|cats| - 1];
      MatchingIff(init, t, n);
      assert forall k :: 0 <= k < |init| ==> init[k] == cats[k];
      if exists k :: 0 <= k < |cats| && cats[k].name == n && AnyOccurs(cats[k].phrases, t) {
        var k :| 0 <= k < |cats| && cats[k].name == n && AnyOccurs(cats[k].phrases, t);
        if k < |init| {
          assert init[k].name == n && AnyOccurs(init[k].phrases, t);
        }
      }
    }
  }

  /** Every reported name is a category name. */
  lemma MatchingNamed(cats: seq<Category>, t: string)
    ensures forall n :: n in Matching(cats, t) ==> n in Names(cats)
  {
    forall n | n in Matching(cats, t) ensures n in Names(cats) {
      MatchingIff(cats, t, n);
      var k :| 0 <= k < |cats| && cats[k].name == n && AnyOccurs(cats[k].phrases, t);
      assert Names(cats)[k] == n;
    }
  }

  /**
   * When the category names are distinct, the result has no duplicates and
   * lists the matching names in the order the categories are declared.
   */
  lemma {:induction false} MatchingOrdered(cats: seq<Category>, t: string)
    requires Distinct(Names(cats))
    ensures Distinct(Matching(cats, t))
    ensures IsSubsequence(Matching(cats, t), Names(cats))
    decreases |cats|
  {
    if cats != [] {
      var init := cats[..|cats| - 1];
      var last := cats[|cats| - 1];
      assert Names(cats) == Names(init) + [last.name];
      assert Distinct(Names(init)) by {
        forall i, j | 0 <= i < j < |Names(init)| ensures Names(init)[i] != Names(init)[j] {
          assert Names(init)[i] == Names(cats)[i] && Names(init)[j] == Names(cats)[j];
        }
      }
      MatchingOrdered(init, t);
      MatchingNamed(init, t);
      var m := Matching(init, t);
      assert last.name !in Names(init) by {
        forall i | 0 <= i < |Names(init)| ensures Names(init)[i] != last.name {
          assert Names(cats)[i] == Names(init)[i] && Names(cats)[|cats| - 1] == last.name;
        }
      }
      if AnyOccurs(last.phrases, t) {
        assert Matching(cats, t) == m + [last.name];
        assert (m + [last.name])[..|m|] == m;
      } else {
        assert Matching(cats, t) == m;
        assert Names(cats)[..|cats| - 1] == Names(init);
        if m != [] {
          assert m[|m| - 1] in m;
        }
      }
    }
  }

  /** The eight category names are distinct. */
  lemma CategoryNamesDistinct()
    ensures Names(Categories) == [
      "sleep_problems", "appetite_changes", "energy_loss", "concentration_issues",
      "hopelessness", "guilt_shame", "social_withdrawal", "suicidal_thoughts"]
    ensures Distinct(Names(Categories))
  {
  }

  /**
   * What the extractor returns for any text: at most the eight names, none
   * twice, each a category name, in declaration order.
   */
  lemma IndicatorsWellFormed(text: string)
    ensures var r := Matching(Categories, Lower(text));
      && Distinct(r)
      && IsSubsequence(r, Names(Categories))
      && (forall n :: n in r ==> n in Names(Categories))
  {
    CategoryNamesDistinct();
    MatchingOrdered(Categories, Lower(text));
    MatchingNamed(Categories, Lower(text));
  }

  /** A text whose lower-cased form contains "tự tử" is flagged with `suicidal_thoughts`. */
  lemma SuicidalPhraseFlagged(text: string)
    requires Occurs("tự tử", Lower(text))
    ensures "suicidal_thoughts" in Matching(Categories, Lower(text))
  {
    var c := Categories[7];
    assert c.name == "suicidal_thoughts" && c.phrases[0] == "tự tử";
    assert AnyOccurs(c.phrases, Lower(text));
    MatchingIff(Categories, Lower(text), "suicidal_thoughts");
  }
}
