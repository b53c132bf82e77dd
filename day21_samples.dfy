/** The sample foods of `mod test` in src/days/day21.rs: five appearances
    of safe ingredients, and the dangerous list "mxmxvkd,sqjhc,fvjkl". */
module Day21Samples {
  import opened Text
  import opened Day21

  const Food0 := Food({"mxmxvkd", "kfcds", "sqjhc", "nhms"}, {"dairy", "fish"})
  const Food1 := Food({"trh", "fvjkl", "sbzzf", "mxmxvkd"}, {"dairy"})
  const Food2 := Food({"sqjhc", "fvjkl"}, {"soy"})
  const Food3 := Food({"sqjhc", "mxmxvkd", "sbzzf"}, {"fish"})
  const Sample := [Food0, Food1, Food2, Food3]

  lemma SampleUnions()
    ensures AllIngredients(Sample) == {"mxmxvkd", "kfcds", "sqjhc", "nhms", "trh", "fvjkl", "sbzzf"}
    ensures AllAllergens(Sample) == {"dairy", "fish", "soy"}
  {
    var s1, s2, s3 := [Food0], [Food0, Food1], [Food0, Food1, Food2];
    assert s1[..0] == [] && s2[..1] == s1 && s3[..2] == s2 && Sample[..3] == s3;
    assert AllIngredients(s1) == Food0.ingredients && AllAllergens(s1) == Food0.allergens;
    assert AllIngredients(s2) == AllIngredients(s1) + Food1.ingredients;
    assert AllAllergens(s2) == AllAllergens(s1) + Food1.allergens;
    assert AllIngredients(s3) == AllIngredients(s2) + Food2.ingredients;
    assert AllAllergens(s3) == AllAllergens(s2) + Food2.allergens;
    assert AllIngredients(Sample) == AllIngredients(s3) + Food3.ingredients;
    assert AllAllergens(Sample) == AllAllergens(s3) + Food3.allergens;
  }

  lemma SampleDairy()
    ensures Common(Sample, 4, "dairy") == {"mxmxvkd"}
  {
    SampleUnions();
    forall i | i in Common(Sample, 4, "dairy")
      ensures i in {"mxmxvkd"}
    {
      assert "dairy" in Sample[0].allergens;
      assert "dairy" in Sample[1].allergens;
    }
  }

  lemma SampleFish()
    ensures Common(Sample, 4, "fish") == {"mxmxvkd", "sqjhc"}
  {
    SampleUnions();
    forall i | i in Common(Sample, 4, "fish")
      ensures i in {"mxmxvkd", "sqjhc"}
    {
      assert "fish" in Sample[0].allergens;
      assert "fish" in Sample[3].allergens;
    }
  }

  lemma SampleSoy()
    ensures Common(Sample, 4, "soy") == {"sqjhc", "fvjkl"}
  {
    SampleUnions();
    forall i | i in Common(Sample, 4, "soy")
      ensures i in {"sqjhc", "fvjkl"}
    {
      assert "soy" in Sample[2].allergens;
    }
  }

  const SampleSafe: set<string> := {"kfcds", "nhms", "trh", "sbzzf"}

  lemma SampleSafeIs()
    ensures Safe(Sample) == SampleSafe
  {
    SampleUnions();
    SampleDairy();
    SampleFish();
    SampleSoy();
    forall i | i in Safe(Sample)
      ensures i in SampleSafe
    {
      assert i !in Common(Sample, 4, "dairy") && i !in Common(Sample, 4, "fish") && i !in Common(Sample, 4, "soy");
    }
  }

  /** The test of `part1`: safe ingredients appear five times. */
  lemma SamplePart1()
    ensures SafeCount(Sample, Safe(Sample)) == 5
  {
    SampleSafeIs();
    var s1, s2, s3 := [Food0], [Food0, Food1], [Food0, Food1, Food2];
    assert s1[..0] == [] && s2[..1] == s1 && s3[..2] == s2 && Sample[..3] == s3;
    assert |Food0.ingredients * SampleSafe| == 2 by {
      assert Food0.ingredients * SampleSafe == {"kfcds", "nhms"};
    }
    assert |Food1.ingredients * SampleSafe| == 2 by {
      assert Food1.ingredients * SampleSafe == {"trh", "sbzzf"};
    }
    assert |Food2.ingredients * SampleSafe| == 0 by {
      assert Food2.ingredients * SampleSafe == {};
    }
    assert |Food3.ingredients * SampleSafe| == 1 by {
      assert Food3.ingredients * SampleSafe == {"sbzzf"};
    }
    assert SafeCount(s1, SampleSafe) == 2;
    assert SafeCount(s2, SampleSafe) == 4;
    assert SafeCount(s3, SampleSafe) == 4;
  }

  const SampleCandidates: Candidates :=
    map["dairy" := {"mxmxvkd"}, "fish" := {"mxmxvkd", "sqjhc"}, "soy" := {"sqjhc", "fvjkl"}]

  lemma SampleCandidatesAre()
    ensures CandidatesOf(Sample) == SampleCandidates
  {
    SampleUnions();
    SampleDairy();
    SampleFish();
    SampleSoy();
  }

  const Dairy: Pair := ("dairy", "mxmxvkd")
  const Fish: Pair := ("fish", "sqjhc")
  const Soy: Pair := ("soy", "fvjkl")

  /** Only one assignment of the sample's candidates names every allergen. */
  lemma SamplePairs(list: seq<Pair>)
    requires Assigns(SampleCandidates, list) && AllergensOf(list) == SampleCandidates.Keys
    ensures multiset(list) == multiset{Dairy, Fish, Soy}
  {
    assert "dairy" in AllergensOf(list) && "fish" in AllergensOf(list) && "soy" in AllergensOf(list);
    var d :| d in list && d.0 == "dairy";
    var f :| f in list && f.0 == "fish";
    var y :| y in list && y.0 == "soy";
    assert d == Dairy;
    assert f == Fish;
    assert y == Soy;
    forall p
      ensures multiset(list)[p] == multiset{Dairy, Fish, Soy}[p]
    {
      if p in list {
        assert p == d || p == f || p == y;
      }
    }
  }

  /** Sorted by allergen, the sample's pairs come in one order. */
  lemma SampleOrder(list: seq<Pair>)
    requires multiset(list) == multiset{Dairy, Fish, Soy} && SortedByAllergen(list)
    ensures list == [Dairy, Fish, Soy]
  {
    assert |list| == 3 by {
      assert |multiset(list)| == 3;
    }
    assert list == [list[0], list[1], list[2]];
    assert Below(list[0].0, list[1].0) && Below(list[1].0, list[2].0);
  }

  lemma SampleJoin()
    ensures Join(Ingredients([Dairy, Fish, Soy]), ',') == "mxmxvkd,sqjhc,fvjkl"
  {
    var ws := ["mxmxvkd", "sqjhc", "fvjkl"];
    assert Ingredients([Dairy, Fish, Soy]) == ws;
    assert ws[1..][1..] == ["fvjkl"] && ws[1..] == ["sqjhc", "fvjkl"];
    assert Join(ws[1..], ',') == "sqjhc" + [','] + "fvjkl";
  }

  /** The test of `part2`: every sorted full assignment of the sample's
      candidates joins to the same list. */
  lemma SamplePart2(list: seq<Pair>)
    requires Assigns(CandidatesOf(Sample), list) && AllergensOf(list) == CandidatesOf(Sample).Keys
    requires SortedByAllergen(list)
    ensures Join(Ingredients(list), ',') == "mxmxvkd,sqjhc,fvjkl"
  {
    SampleCandidatesAre();
    SamplePairs(list);
    SampleOrder(list);
    SampleJoin();
  }
}
