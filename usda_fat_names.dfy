/** The fat entries of a FoodData Central food under the details chain of `getUSDAFoodDetails`, as
    written and as corrected. Each name is checked against the rules' keywords by its characters: a
    keyword with a character the name lacks, or with two adjacent characters the name never has
    side by side, cannot occur in it. */
module UsdaFatNames {
  import opened Wrappers
  import Text
  import opened Nutrients
  import opened Api

  const TotalLipid := "total lipid (fat)"
  const Saturated := "fatty acids, total saturated"
  const Monounsaturated := "fatty acids, total monounsaturated"
  const Trans := "fatty acids, total trans"

  /** A food's fat entries as FoodData Central lists them, already in lower case: 10 g total fat,
      3 g saturated, 4 g monounsaturated and 0.5 g trans fat. */
  const FatFamily: seq<UsdaNutrient> := [
    UsdaNutrient(Some(TotalLipid), Some(10.0)),
    UsdaNutrient(Some(Saturated), Some(3.0)),
    UsdaNutrient(Some(Monounsaturated), Some(4.0)),
    UsdaNutrient(Some(Trans), Some(0.5))]

  // ---------------------------------------------------------------- characters of the names

  const LipidChars := {'t', 'o', 'a', 'l', ' ', 'i', 'p', 'd', '(', 'f', ')'}
  const SaturatedChars := {'f', 'a', 't', 'y', ' ', 'c', 'i', 'd', 's', ',', 'o', 'l', 'u', 'r', 'e'}
  const MonoChars := {'f', 'a', 't', 'y', ' ', 'c', 'i', 'd', 's', ',', 'o', 'l', 'm', 'n', 'u', 'r', 'e'}
  const TransChars := {'f', 'a', 't', 'y', ' ', 'c', 'i', 'd', 's', ',', 'o', 'l', 'r', 'n'}

  /** Every character of `s` is in `cs`. */
  predicate DrawnFrom(s: string, cs: set<char>)
  {
    forall i :: 0 <= i < |s| ==> s[i] in cs
  }

  lemma NameChars()
    ensures DrawnFrom(TotalLipid, LipidChars)
    ensures DrawnFrom(Saturated, SaturatedChars)
    ensures DrawnFrom(Monounsaturated, MonoChars)
    ensures DrawnFrom(Trans, TransChars)
  {
  }

  /** In "fatty acids, total monounsaturated" an 's' is followed by ',' or 'a'. */
  lemma MonoAfterS()
    ensures forall i :: 0 <= i < |Monounsaturated| - 1 && Monounsaturated[i] == 's' ==>
      Monounsaturated[i + 1] in {',', 'a'}
  {
  }

  /** In "fatty acids, total monounsaturated" a space is followed by 'a', 't' or 'm'. */
  lemma MonoAfterSpace()
    ensures forall i :: 0 <= i < |Monounsaturated| - 1 && Monounsaturated[i] == ' ' ==>
      Monounsaturated[i + 1] in {'a', 't', 'm'}
  {
  }

  /** In "fatty acids, total monounsaturated" a 't' is never followed by 'r'. */
  lemma MonoAfterT()
    ensures forall i :: 0 <= i < |Monounsaturated| - 1 && Monounsaturated[i] == 't' ==>
      Monounsaturated[i + 1] in {'t', 'y', 'o', 'a', 'u', 'e'}
  {
  }

  /** A keyword with a character the name lacks does not occur in it. */
  lemma Lacks(s: string, cs: set<char>, sub: string, k: nat)
    requires DrawnFrom(s, cs) && k < |sub| && sub[k] !in cs
    ensures !Text.Contains(s, sub)
  {
    forall i | 0 <= i <= |s|
      ensures !Text.OccursAt(s, sub, i)
    {
      if i + |sub| <= |s| {
        assert s[i..i + |sub|][k] == s[i + k];
      }
    }
  }

  /** A keyword whose characters at `k` and `k + 1` never stand side by side in the name does not
      occur in it. */
  lemma LacksPair(s: string, next: set<char>, sub: string, k: nat)
    requires k + 1 < |sub| && sub[k + 1] !in next
    requires forall i :: 0 <= i < |s| - 1 && s[i] == sub[k] ==> s[i + 1] in next
    ensures !Text.Contains(s, sub)
  {
    forall i | 0 <= i <= |s|
      ensures !Text.OccursAt(s, sub, i)
    {
      if i + |sub| <= |s| {
        assert s[i..i + |sub|][k] == s[i + k] && s[i..i + |sub|][k + 1] == s[i + k + 1];
      }
    }
  }

  /** `sub` found at a position is contained. */
  lemma Found(s: string, sub: string, i: nat)
    requires Text.OccursAt(s, sub, i)
    ensures Text.Contains(s, sub)
  {
  }

  /** A name without 'g', 'p' and 'b' mentions neither energy, protein nor carbohydrate. */
  lemma FirstKeywords(s: string, cs: set<char>)
    requires DrawnFrom(s, cs) && 'g' !in cs && 'p' !in cs && 'b' !in cs
    ensures !Text.Contains(s, "energy") && !Text.Contains(s, "protein")
    ensures !Text.Contains(s, "carbohydrate") && !Text.Contains(s, "carb")
  {
    Lacks(s, cs, "energy", 4);
    Lacks(s, cs, "protein", 0);
    Lacks(s, cs, "carbohydrate", 3);
    Lacks(s, cs, "carb", 3);
  }

  /** A name without 'p', 'b', 'g' and 'h' mentions none of "total lipid", fiber, sugars and
      cholesterol. */
  lemma MiddleKeywords(s: string, cs: set<char>)
    requires DrawnFrom(s, cs) && 'p' !in cs && 'b' !in cs && 'g' !in cs && 'h' !in cs
    ensures !Text.Contains(s, "total lipid") && !Text.Contains(s, "fiber")
    ensures !Text.Contains(s, "sugars") && !Text.Contains(s, "cholesterol")
  {
    Lacks(s, cs, "total lipid", 8);
    Lacks(s, cs, "fiber", 2);
    Lacks(s, cs, "sugars", 2);
    Lacks(s, cs, "cholesterol", 1);
  }

  // ---------------------------------------------------------------- the field of each name

  /** "total lipid (fat)" sets fat in both chains. */
  lemma TotalLipidIsFat()
    ensures FirstMatch(TotalLipid, DetailRules) == Some(Fat)
    ensures FirstMatch(TotalLipid, CorrectedDetailRules) == Some(Fat)
  {
    NameChars();
    Lacks(TotalLipid, LipidChars, "energy", 0);
    Lacks(TotalLipid, LipidChars, "protein", 1);
    Lacks(TotalLipid, LipidChars, "carbohydrate", 0);
    Lacks(TotalLipid, LipidChars, "carb", 0);
    Found(TotalLipid, "fat", 13);
    StopsAtFat(TotalLipid);
    PastFirstThree(TotalLipid);
    Found(TotalLipid, "total lipid", 0);
    assert Matches(TotalLipid, CorrectedDetailRules[3].0) by {
      assert CorrectedDetailRules[3].0[0] == "total lipid";
    }
    FirstMatchAt(TotalLipid, CorrectedDetailRules, 3);
  }

  /** "fatty acids, total saturated" sets fat as written, saturated fat when corrected. */
  lemma SaturatedField()
    ensures FirstMatch(Saturated, DetailRules) == Some(Fat)
    ensures FirstMatch(Saturated, CorrectedDetailRules) == Some(SaturatedFat)
  {
    NameChars();
    FirstKeywords(Saturated, SaturatedChars);
    MiddleKeywords(Saturated, SaturatedChars);
    Lacks(Saturated, SaturatedChars, "sodium", 5);
    Found(Saturated, "fat", 0);
    Found(Saturated, "total saturated", 13);
    StopsAtFat(Saturated);
    PastCorrectedEight(Saturated);
    assert Matches(Saturated, CorrectedDetailRules[8].0) by {
      assert CorrectedDetailRules[8].0[0] == "total saturated";
    }
    FirstMatchAt(Saturated, CorrectedDetailRules, 8);
  }

  /** "fatty acids, total monounsaturated" has every character of "sodium", "total saturated" and
      "total trans", but not side by side. */
  lemma MonoPairs()
    ensures !Text.Contains(Monounsaturated, "sodium")
    ensures !Text.Contains(Monounsaturated, "total saturated")
    ensures !Text.Contains(Monounsaturated, "total trans")
  {
    MonoAfterS();
    MonoAfterSpace();
    MonoAfterT();
    LacksPair(Monounsaturated, {',', 'a'}, "sodium", 0);
    LacksPair(Monounsaturated, {'a', 't', 'm'}, "total saturated", 5);
    LacksPair(Monounsaturated, {'t', 'y', 'o', 'a', 'u', 'e'}, "total trans", 6);
  }

  /** "fatty acids, total monounsaturated" sets fat as written and nothing when corrected. */
  lemma MonounsaturatedField()
    ensures FirstMatch(Monounsaturated, DetailRules) == Some(Fat)
    ensures FirstMatch(Monounsaturated, CorrectedDetailRules) == None
  {
    NameChars();
    FirstKeywords(Monounsaturated, MonoChars);
    MiddleKeywords(Monounsaturated, MonoChars);
    MonoPairs();
    Found(Monounsaturated, "fat", 0);
    StopsAtFat(Monounsaturated);
    PastCorrectedEight(Monounsaturated);
    NoCorrectedRuleAfterEight(Monounsaturated);
  }

  /** A name that passes the first eight corrected rules and mentions neither total saturated nor
      total trans matches no corrected rule. */
  lemma NoCorrectedRuleAfterEight(name: string)
    requires forall j :: 0 <= j < 8 ==> !Matches(name, CorrectedDetailRules[j].0)
    requires !Text.Contains(name, "total saturated") && !Text.Contains(name, "total trans")
    ensures FirstMatch(name, CorrectedDetailRules) == None
  {
    assert CorrectedDetailRules[8].0 == ["total saturated"];
    assert CorrectedDetailRules[9].0 == ["total trans"];
    FirstMatchIsFirst(name, CorrectedDetailRules);
  }

  /** "fatty acids, total trans" sets fat as written, trans fat when corrected. */
  lemma TransField()
    ensures FirstMatch(Trans, DetailRules) == Some(Fat)
    ensures FirstMatch(Trans, CorrectedDetailRules) == Some(TransFat)
  {
    NameChars();
    FirstKeywords(Trans, TransChars);
    MiddleKeywords(Trans, TransChars);
    Lacks(Trans, TransChars, "sodium", 5);
    Lacks(Trans, TransChars, "total saturated", 9);
    Found(Trans, "fat", 0);
    Found(Trans, "total trans", 13);
    StopsAtFat(Trans);
    PastCorrectedEight(Trans);
    assert !Matches(Trans, CorrectedDetailRules[8].0) by {
      assert CorrectedDetailRules[8].0 == ["total saturated"];
    }
    assert Matches(Trans, CorrectedDetailRules[9].0) by {
      assert CorrectedDetailRules[9].0[0] == "total trans";
    }
    FirstMatchAt(Trans, CorrectedDetailRules, 9);
  }

  // ---------------------------------------------------------------- the whole list

  /** The names are already lower case, so `toLowerCase()` keeps them. */
  lemma NamesLower()
    ensures forall i :: 0 <= i < |FatFamily| ==> NameOf(FatFamily[i]) == FatFamily[i].nutrientName.value
  {
    NameChars();
    LowerFixed(TotalLipid, LipidChars);
    LowerFixed(Saturated, SaturatedChars);
    LowerFixed(Monounsaturated, MonoChars);
    LowerFixed(Trans, TransChars);
  }

  lemma LowerFixed(s: string, cs: set<char>)
    requires DrawnFrom(s, cs) && forall c :: c in cs ==> !('A' <= c <= 'Z')
    ensures Text.ToLower(s) == s
  {
  }

  /** The field each entry selects, as written and corrected. */
  lemma FamilyFields()
    ensures forall i :: 0 <= i < |FatFamily| ==> FieldOf(FatFamily[i], DetailRules) == Some(Fat)
    ensures FieldOf(FatFamily[0], CorrectedDetailRules) == Some(Fat)
    ensures FieldOf(FatFamily[1], CorrectedDetailRules) == Some(SaturatedFat)
    ensures FieldOf(FatFamily[2], CorrectedDetailRules) == None
    ensures FieldOf(FatFamily[3], CorrectedDetailRules) == Some(TransFat)
  {
    NamesLower();
    TotalLipidIsFat();
    SaturatedField();
    MonounsaturatedField();
    TransField();
  }

  /** As written, every entry overwrites `fat`: the list leaves the trans-fat amount as the food's
      fat and sets neither saturated nor trans fat. */
  lemma FatFamilyAsWritten()
    ensures Mapped(FatFamily, DetailRules) == map[Fat := 0.5]
  {
    FamilyFields();
    var ns := FatFamily;
    assert ns[..1][..0] == [] && ns[..2][..1] == ns[..1] && ns[..3][..2] == ns[..2] && ns[..4] == ns;
    assert Mapped(ns[..1], DetailRules) == map[Fat := 10.0];
    assert Mapped(ns[..2], DetailRules) == map[Fat := 3.0];
    assert Mapped(ns[..3], DetailRules) == map[Fat := 4.0];
  }

  /** Corrected, each amount lands in its own field and monounsaturated fat in none. */
  lemma FatFamilyCorrected()
    ensures Mapped(FatFamily, CorrectedDetailRules) == map[Fat := 10.0, SaturatedFat := 3.0, TransFat := 0.5]
  {
    FamilyFields();
    var ns := FatFamily;
    assert ns[..1][..0] == [] && ns[..2][..1] == ns[..1] && ns[..3][..2] == ns[..2] && ns[..4] == ns;
    assert Mapped(ns[..1], CorrectedDetailRules) == map[Fat := 10.0];
    assert Mapped(ns[..2], CorrectedDetailRules) == map[Fat := 10.0, SaturatedFat := 3.0];
    assert Mapped(ns[..3], CorrectedDetailRules) == map[Fat := 10.0, SaturatedFat := 3.0];
  }
}
