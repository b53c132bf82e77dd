/** Day 21: allergen assessment. Each food line lists its ingredients and
    some of the allergens it contains. An allergen's candidate ingredients
    are those in every food listing it; an ingredient in no candidate set is
    safe. Part 1 counts safe ingredients over all foods; part 2 pins each
    allergen to one ingredient by repeatedly taking an allergen left with a
    single candidate and striking that ingredient from the others, then
    lists the ingredients in allergen order.

    The sets and the map are hash-based and their iteration order is
    unspecified; the loops below take the next key with `:|`, so what they
    promise holds for every order. */
module Day21 {
  import opened Sets
  import opened Text

  /** A food: its ingredients and the allergens it is known to contain. */
  datatype Food = Food(ingredients: set<string>, allergens: set<string>)

  type Candidates = map<string, set<string>>

  // ------------------------------------------------------------ parse_line

  const Marker := "(contains"

  /** The index of the first "(contains" word at or after i, or the end. */
  function MarkerFrom(ws: seq<string>, i: nat): (c: nat)
    requires i <= |ws|
    ensures i <= c <= |ws| && (c < |ws| ==> ws[c] == Marker)
    ensures forall k :: i <= k < c ==> ws[k] != Marker
    decreases |ws| - i
  {
    if i == |ws| || ws[i] == Marker then i else MarkerFrom(ws, i + 1)
  }

  /** `strip_suffix` with a `,` or `)` pattern: one such last character
      goes, and a word without one is kept whole. */
  function Strip(w: string): string
  {
    if |w| > 0 && (w[|w| - 1] == ',' || w[|w| - 1] == ')') then w[..|w| - 1] else w
  }

  lemma StripPunctuation(w: string)
    ensures Strip(w + [',']) == w && Strip(w + [')']) == w
    ensures |w| == 0 || (w[|w| - 1] != ',' && w[|w| - 1] != ')') ==> Strip(w) == w
  {
    assert (w + [','])[..|w|] == w;
    assert (w + [')'])[..|w|] == w;
  }

  /** `parse_line`: the words before "(contains" are the ingredients, the
      words after it, stripped, the allergens. */
  function FoodOf(ws: seq<string>): Food
  {
    var c := MarkerFrom(ws, 0);
    Food(set k | 0 <= k < c :: ws[k], set k | c < k < |ws| :: Strip(ws[k]))
  }

  /** `parse_line`: the ingredient loop stops at "(contains", which it
      consumes; the allergens are the rest of the words. */
  method ParseLine(s: string) returns (f: Food)
    ensures f == FoodOf(Split(s, ' '))
  {
    var words := Split(s, ' ');
    ghost var c := MarkerFrom(words, 0);
    var ingredients: set<string> := {};
    var i := 0;
    while i < |words|
      invariant i <= c && MarkerFrom(words, i) == c
      invariant ingredients == set k | 0 <= k < i :: words[k]
    {
      if words[i] == Marker {
        break;
      }
      assert (set k | 0 <= k < i + 1 :: words[k]) == (set k | 0 <= k < i :: words[k]) + {words[i]};
      ingredients := ingredients + {words[i]};
      i := i + 1;
    }
    if i < |words| {
      i := i + 1;
    }
    var allergens: set<string> := {};
    while i < |words|
      invariant c < i <= |words| || i == c == |words|
      invariant allergens == set k | c < k < i :: Strip(words[k])
    {
      assert (set k | c < k < i + 1 :: Strip(words[k])) == (set k | c < k < i :: Strip(words[k])) + {Strip(words[i])};
      allergens := allergens + {Strip(words[i])};
      i := i + 1;
    }
    return Food(ingredients, allergens);
  }

  /** A food line as the puzzle writes it: the ingredients, then
      "(contains", then the allergens separated by ", " and closed by ")". */
  function Line(ings: seq<string>, alls: seq<string>): string
  {
    Join(ings + [Marker] + Listed(alls), ' ')
  }

  /** The allergen words: each followed by a comma, the last by ")". */
  function Listed(alls: seq<string>): (ws: seq<string>)
    ensures |ws| == |alls|
  {
    seq(|alls|, k requires 0 <= k < |alls| => alls[k] + [if k == |alls| - 1 then ')' else ','])
  }

  /** Each written allergen word strips back to its allergen and holds a
      space only where the allergen does. */
  lemma ListedWords(alls: seq<string>)
    ensures forall j :: 0 <= j < |alls| ==> Strip(Listed(alls)[j]) == alls[j]
    ensures forall j :: 0 <= j < |alls| ==> (' ' in Listed(alls)[j] <==> ' ' in alls[j])
  {
    forall j | 0 <= j < |alls|
      ensures Strip(Listed(alls)[j]) == alls[j]
    {
      StripPunctuation(alls[j]);
    }
  }

  /** A written line splits back into its words. */
  lemma LineWords(ings: seq<string>, alls: seq<string>)
    requires forall k :: 0 <= k < |ings| ==> ' ' !in ings[k]
    requires forall k :: 0 <= k < |alls| ==> ' ' !in alls[k]
    ensures Split(Line(ings, alls), ' ') == ings + [Marker] + Listed(alls)
  {
    var ws := ings + [Marker] + Listed(alls);
    ListedWords(alls);
    forall k | 0 <= k < |ws|
      ensures ' ' !in ws[k]
    {
      if k > |ings| {
        assert ws[k] == Listed(alls)[k - |ings| - 1];
      }
    }
    SplitJoin(ws, ' ');
  }

  lemma WordsIngredients(ings: seq<string>, alls: seq<string>)
    requires Marker !in ings
    ensures var ws := ings + [Marker] + Listed(alls);
      MarkerFrom(ws, 0) == |ings| && (set k | 0 <= k < |ings| :: ws[k]) == set w | w in ings
  {
    var ws := ings + [Marker] + Listed(alls);
    MarkerAt(ws, 0, |ings|);
    forall w | w in ings
      ensures w in (set k | 0 <= k < |ings| :: ws[k])
    {
      var k :| 0 <= k < |ings| && ings[k] == w;
      assert ws[k] == w;
    }
  }

  lemma WordsAllergens(ings: seq<string>, alls: seq<string>)
    ensures var ws := ings + [Marker] + Listed(alls);
      (set k | |ings| < k < |ws| :: Strip(ws[k])) == set w | w in alls
  {
    var ws := ings + [Marker] + Listed(alls);
    var c := |ings|;
    ListedWords(alls);
    forall k | c < k < |ws|
      ensures Strip(ws[k]) in alls
    {
      assert ws[k] == Listed(alls)[k - c - 1];
    }
    forall w | w in alls
      ensures w in (set k | c < k < |ws| :: Strip(ws[k]))
    {
      var j :| 0 <= j < |alls| && alls[j] == w;
      assert ws[c + 1 + j] == Listed(alls)[j];
    }
  }

  /** Reading a written food line gives back its ingredients and allergens. */
  lemma ParseLineShow(ings: seq<string>, alls: seq<string>)
    requires Marker !in ings
    requires forall k :: 0 <= k < |ings| ==> ' ' !in ings[k]
    requires forall k :: 0 <= k < |alls| ==> ' ' !in alls[k]
    ensures FoodOf(Split(Line(ings, alls), ' ')) == Food(set w | w in ings, set w | w in alls)
  {
    LineWords(ings, alls);
    WordsIngredients(ings, alls);
    WordsAllergens(ings, alls);
  }

  lemma {:induction false} MarkerAt(ws: seq<string>, i: nat, c: nat)
    requires i <= c < |ws| && ws[c] == Marker
    requires forall k :: i <= k < c ==> ws[k] != Marker
    ensures MarkerFrom(ws, i) == c
    decreases c - i
  {
    if i < c {
      MarkerAt(ws, i + 1, c);
    }
  }

  // ---------------------------------------------------------------- shared

  function AllIngredients(foods: seq<Food>): set<string>
  {
    if foods == [] then {} else AllIngredients(foods[..|foods| - 1]) + foods[|foods| - 1].ingredients
  }

  function AllAllergens(foods: seq<Food>): set<string>
  {
    if foods == [] then {} else AllAllergens(foods[..|foods| - 1]) + foods[|foods| - 1].allergens
  }

  /** The two unions hold exactly what some food holds. */
  lemma {:induction false} UnionsHold(foods: seq<Food>)
    ensures forall i :: i in AllIngredients(foods) <==> exists k :: 0 <= k < |foods| && i in foods[k].ingredients
    ensures forall a :: a in AllAllergens(foods) <==> exists k :: 0 <= k < |foods| && a in foods[k].allergens
  {
    if foods != [] {
      var front := foods[..|foods| - 1];
      UnionsHold(front);
      forall i | i in AllIngredients(foods)
        ensures exists k :: 0 <= k < |foods| && i in foods[k].ingredients
      {
        if i in AllIngredients(front) {
          var k :| 0 <= k < |front| && i in front[k].ingredients;
          assert foods[k] == front[k];
        }
      }
      forall i, k | 0 <= k < |foods| && i in foods[k].ingredients
        ensures i in AllIngredients(foods)
      {
        if k < |front| {
          assert front[k] == foods[k];
        }
      }
      forall a | a in AllAllergens(foods)
        ensures exists k :: 0 <= k < |foods| && a in foods[k].allergens
      {
        if a in AllAllergens(front) {
          var k :| 0 <= k < |front| && a in front[k].allergens;
          assert foods[k] == front[k];
        }
      }
      forall a, k | 0 <= k < |foods| && a in foods[k].allergens
        ensures a in AllAllergens(foods)
      {
        if k < |front| {
          assert front[k] == foods[k];
        }
      }
    }
  }

  lemma InUnions(foods: seq<Food>, k: nat)
    requires k < |foods|
    ensures foods[k].ingredients <= AllIngredients(foods) && foods[k].allergens <= AllAllergens(foods)
  {
    UnionsHold(foods);
  }

  /** The ingredients found in every one of the first j foods that lists a. */
  function Common(foods: seq<Food>, j: nat, a: string): set<string>
    requires j <= |foods|
  {
    set i | i in AllIngredients(foods) && forall k :: 0 <= k < j && a in foods[k].allergens ==> i in foods[k].ingredients
  }

  /** The candidate sets after the first j foods. */
  function CandidatesUpTo(foods: seq<Food>, j: nat): Candidates
    requires j <= |foods|
  {
    map a | a in AllAllergens(foods) :: Common(foods, j, a)
  }

  /** Each allergen's candidates: the ingredients in every food listing it. */
  function CandidatesOf(foods: seq<Food>): Candidates
  {
    CandidatesUpTo(foods, |foods|)
  }

  /** The ingredients that are no allergen's candidate. */
  function Safe(foods: seq<Food>): set<string>
  {
    set i | i in AllIngredients(foods) && forall a :: a in AllAllergens(foods) ==> i !in Common(foods, |foods|, a)
  }

  /** Some food lists allergen a without ingredient i. */
  predicate Excluded(foods: seq<Food>, a: string, i: string)
  {
    exists k :: 0 <= k < |foods| && a in foods[k].allergens && i !in foods[k].ingredients
  }

  /** An ingredient is safe exactly when some food holds it and, for every
      allergen, some food lists the allergen without it. */
  lemma SafeMeaning(foods: seq<Food>, i: string)
    ensures i in Safe(foods) <==>
      (exists k :: 0 <= k < |foods| && i in foods[k].ingredients) &&
      forall a :: a in AllAllergens(foods) ==> Excluded(foods, a, i)
  {
    UnionsHold(foods);
    if i in AllIngredients(foods) {
      forall a | a in AllAllergens(foods)
        ensures i !in Common(foods, |foods|, a) <==> Excluded(foods, a, i)
      {
        if i !in Common(foods, |foods|, a) {
          assert !forall k :: 0 <= k < |foods| && a in foods[k].allergens ==> i in foods[k].ingredients;
        }
      }
    }
  }

  /** Safe ingredients are in no candidate set. */
  lemma SafeApart(foods: seq<Food>)
    ensures forall a :: a in CandidatesOf(foods) ==> CandidatesOf(foods)[a] * Safe(foods) == {}
  {
  }

  /** One more food intersects the candidate sets of the allergens it lists
      with its ingredients and leaves the others alone. */
  lemma CandidatesStep(foods: seq<Food>, j: nat, a: string)
    requires j < |foods| && a in AllAllergens(foods)
    ensures Common(foods, j + 1, a) ==
      if a in foods[j].allergens then Common(foods, j, a) * foods[j].ingredients else Common(foods, j, a)
  {
  }

  /** `shared`: the unions, the candidate sets narrowed food by food, then
      the ingredients left over. */
  method Shared(foods: seq<Food>) returns (safe: set<string>, mappings: Candidates)
    ensures mappings == CandidatesOf(foods)
    ensures safe == Safe(foods)
  {
    var ingredients, allergens := Unions(foods);
    mappings := map a | a in allergens :: ingredients;
    assert forall a :: a in allergens ==> Common(foods, 0, a) == ingredients;
    assert mappings == CandidatesUpTo(foods, 0);
    for k := 0 to |foods|
      invariant mappings == CandidatesUpTo(foods, k)
    {
      mappings := Narrow(foods, k, mappings);
    }
    safe := Leftover(ingredients, mappings);
    assert forall a :: a in mappings ==> mappings[a] == Common(foods, |foods|, a);
  }

  /** The first loop of `shared`: every food's ingredients and allergens. */
  method Unions(foods: seq<Food>) returns (ingredients: set<string>, allergens: set<string>)
    ensures ingredients == AllIngredients(foods) && allergens == AllAllergens(foods)
  {
    ingredients, allergens := {}, {};
    for k := 0 to |foods|
      invariant ingredients == AllIngredients(foods[..k]) && allergens == AllAllergens(foods[..k])
    {
      assert foods[..k + 1][..k] == foods[..k];
      ingredients := ingredients + foods[k].ingredients;
      allergens := allergens + foods[k].allergens;
    }
    assert foods[..|foods|] == foods;
  }

  /** One turn of the second loop of `shared`: each allergen food k lists,
      in some order, keeps only the ingredients food k holds. */
  method Narrow(foods: seq<Food>, k: nat, before: Candidates) returns (mappings: Candidates)
    requires k < |foods| && before == CandidatesUpTo(foods, k)
    ensures mappings == CandidatesUpTo(foods, k + 1)
  {
    InUnions(foods, k);
    mappings := before;
    var todo := foods[k].allergens;
    while todo != {}
      invariant todo <= foods[k].allergens && mappings.Keys == before.Keys
      invariant forall a :: a in mappings ==>
        mappings[a] == if a in foods[k].allergens && a !in todo then before[a] * foods[k].ingredients else before[a]
      decreases todo
    {
      var a :| a in todo;
      mappings := mappings[a := mappings[a] * foods[k].ingredients];
      todo := todo - {a};
    }
    forall a | a in mappings
      ensures mappings[a] == CandidatesUpTo(foods, k + 1)[a]
    {
      CandidatesStep(foods, k, a);
    }
  }

  /** The last loop of `shared`: every candidate set, in some order, taken
      out of all the ingredients. */
  method Leftover(ingredients: set<string>, mappings: Candidates) returns (safe: set<string>)
    ensures safe == set i | i in ingredients && forall a :: a in mappings ==> i !in mappings[a]
  {
    safe := ingredients;
    var todo := mappings.Keys;
    while todo != {}
      invariant todo <= mappings.Keys
      invariant safe == set i | i in ingredients && forall a :: a in mappings && a !in todo ==> i !in mappings[a]
      decreases todo
    {
      var a :| a in todo;
      safe := safe - mappings[a];
      todo := todo - {a};
    }
  }

  // ---------------------------------------------------------------- part 1

  /** Safe ingredients summed over the foods, each food's set counted once. */
  function SafeCount(foods: seq<Food>, safe: set<string>): nat
  {
    if foods == [] then 0 else SafeCount(foods[..|foods| - 1], safe) + |foods[|foods| - 1].ingredients * safe|
  }

  /** `part1`. */
  method Part1(foods: seq<Food>) returns (n: nat)
    ensures n == SafeCount(foods, Safe(foods))
  {
    var safe, _ := Shared(foods);
    n := SafeCount(foods, safe);
  }

  /** Every food is counted for all of its safe ingredients and no others. */
  lemma {:induction false} SafeCountBounds(foods: seq<Food>, safe: set<string>)
    ensures SafeCount(foods, safe) <= SafeCount(foods, AllIngredients(foods))
    ensures safe * AllIngredients(foods) == {} ==> SafeCount(foods, safe) == 0
  {
    if foods != [] {
      var front := foods[..|foods| - 1];
      var last := foods[|foods| - 1];
      SafeCountBounds(front, safe);
      SafeCountMono(front, AllIngredients(front), AllIngredients(foods));
      assert last.ingredients * AllIngredients(foods) == last.ingredients;
      assert last.ingredients * safe <= last.ingredients * AllIngredients(foods);
      SubsetCard(last.ingredients * safe, last.ingredients * AllIngredients(foods));
      if safe * AllIngredients(foods) == {} {
        assert last.ingredients * safe == {};
        assert safe * AllIngredients(front) == {};
      }
    }
  }

  lemma {:induction false} SafeCountMono(foods: seq<Food>, s: set<string>, t: set<string>)
    requires s <= t
    ensures SafeCount(foods, s) <= SafeCount(foods, t)
  {
    if foods != [] {
      SafeCountMono(foods[..|foods| - 1], s, t);
      var last := foods[|foods| - 1];
      SubsetCard(last.ingredients * s, last.ingredients * t);
    }
  }

  // ---------------------------------------------------------------- part 2

  /** `for ingrs in mappings.values_mut()`: the same set taken out of every
      candidate set. */
  method Subtract(m0: Candidates, s: set<string>) returns (m: Candidates)
    ensures m == map a | a in m0 :: m0[a] - s
  {
    m := m0;
    var todo := m0.Keys;
    while todo != {}
      invariant todo <= m0.Keys && m.Keys == m0.Keys
      invariant forall a :: a in m ==> m[a] == if a in todo then m0[a] else m0[a] - s
      decreases todo
    {
      var a :| a in todo;
      m := m[a := m[a] - s];
      todo := todo - {a};
    }
  }

  /** An allergen paired with the ingredient that contains it. */
  type Pair = (string, string)

  function AllergensOf(list: seq<Pair>): set<string>
  {
    set p | p in list :: p.0
  }

  /** The list pairs allergens of c with candidates of theirs, one
      ingredient per allergen and one allergen per ingredient. */
  ghost predicate Assigns(c: Candidates, list: seq<Pair>)
  {
    (forall p :: p in list ==> p.0 in c && p.1 in c[p.0]) &&
    (forall p, q :: p in list && q in list && (p.0 == q.0 || p.1 == q.1) ==> p == q) &&
    (forall p :: multiset(list)[p] <= 1)
  }

  /** What the resolution loop keeps: the allergens still open and the
      ones listed make up c's allergens, and an open allergen's candidates
      are its original ones less every listed ingredient. */
  ghost predicate Progress(c: Candidates, m: Candidates, list: seq<Pair>)
  {
    Assigns(c, list) &&
    m.Keys !! AllergensOf(list) && m.Keys + AllergensOf(list) == c.Keys &&
    forall a :: a in m ==> m[a] <= c[a] && forall p :: p in list ==> p.1 !in m[a]
  }

  /** One allergen resolved to its only candidate: it leaves the map, its
      ingredient leaves every other set and joins the list. */
  lemma ResolveStep(c: Candidates, m: Candidates, list: seq<Pair>, a: string, i: string)
    requires Progress(c, m, list) && a in m && m[a] == {i}
    ensures Progress(c, map b | b in m && b != a :: m[b] - {i}, list + [(a, i)])
  {
    var list' := list + [(a, i)];
    assert (a, i) !in list;
    forall p | p in list'
      ensures p in list || p == (a, i)
    {
    }
    assert AllergensOf(list') == AllergensOf(list) + {a};
  }

  /** One pass over the allergens present at its start, in some order. */
  method Pass(ghost c: Candidates, m0: Candidates, list0: seq<Pair>) returns (m: Candidates, list: seq<Pair>, removed: bool)
    requires Progress(c, m0, list0)
    ensures Progress(c, m, list)
    ensures removed ==> |m.Keys| < |m0.Keys|
    ensures !removed ==> m == m0 && list == list0
    ensures !removed ==> forall a :: a in m0 ==> |m0[a]| != 1
  {
    m, list, removed := m0, list0, false;
    var todo := m0.Keys;
    while todo != {}
      invariant todo <= m.Keys <= m0.Keys && Progress(c, m, list)
      invariant removed ==> m.Keys != m0.Keys
      invariant !removed ==> m == m0 && list == list0
      invariant !removed ==> forall a :: a in m0 && a !in todo ==> |m0[a]| != 1
      decreases todo
    {
      var allergen :| allergen in todo;
      var m', list', taken := Visit(c, m, list, allergen);
      m, list, removed := m', list', removed || taken;
      todo := todo - {allergen};
    }
    if removed {
      SubsetCard(m.Keys, m0.Keys);
      assert m0.Keys == m.Keys + (m0.Keys - m.Keys);
    }
  }

  /** One allergen of the pass: `exactly_one` either finds its only
      candidate, which is then taken, or leaves everything alone. */
  method Visit(ghost c: Candidates, m0: Candidates, list0: seq<Pair>, allergen: string)
    returns (m: Candidates, list: seq<Pair>, taken: bool)
    requires Progress(c, m0, list0) && allergen in m0
    ensures Progress(c, m, list)
    ensures taken ==> m.Keys == m0.Keys - {allergen}
    ensures taken <==> |m0[allergen]| == 1
    ensures !taken ==> m == m0 && list == list0
  {
    if |m0[allergen]| != 1 {
      return m0, list0, false;
    }
    var ingredient :| ingredient in m0[allergen];
    assert m0[allergen] == {ingredient} by {
      assert |m0[allergen] - {ingredient}| == 0;
    }
    m, list := Take(c, m0, list0, allergen, ingredient);
    taken := true;
  }

  /** The body of the `exactly_one` branch: the allergen leaves the map and
      its ingredient every other set, and the pair joins the list. */
  method Take(ghost c: Candidates, m0: Candidates, list0: seq<Pair>, allergen: string, ingredient: string)
    returns (m: Candidates, list: seq<Pair>)
    requires Progress(c, m0, list0) && allergen in m0 && m0[allergen] == {ingredient}
    ensures Progress(c, m, list) && m.Keys == m0.Keys - {allergen}
    ensures list == list0 + [(allergen, ingredient)]
  {
    ResolveStep(c, m0, list0, allergen, ingredient);
    var rest := map b | b in m0 && b != allergen :: m0[b];
    m := Subtract(rest, {ingredient});
    list := list0 + [(allergen, ingredient)];
    assert m == map b | b in m0 && b != allergen :: m0[b] - {ingredient};
  }

  /** The allergens still open with their candidates, after the list was
      resolved, when none of them has exactly one candidate left: a pass
      over them takes nothing. */
  ghost predicate Stuck(c: Candidates, m: Candidates, list: seq<Pair>)
  {
    Progress(c, m, list) && m != map[] && forall a :: a in m ==> |m[a]| != 1
  }

  /** The resolution loop of `part2`. A pass that resolves nothing leaves
      every set as it was, so the next pass resolves nothing either and the
      Rust loop runs forever: `done` is false exactly then, with a non-empty
      map of open allergens none of which has a single candidate. */
  method Resolve(c: Candidates) returns (list: seq<Pair>, done: bool)
    ensures Assigns(c, list)
    ensures done ==> AllergensOf(list) == c.Keys
    ensures !done ==> exists m :: Stuck(c, m, list)
  {
    var m := c;
    list := [];
    while m != map[]
      invariant Progress(c, m, list)
      decreases |m.Keys|
    {
      var m', list', removed := Pass(c, m, list);
      if !removed {
        assert Stuck(c, m, list);
        return list, false;
      }
      m, list := m', list';
    }
    assert m.Keys == {};
    return list, true;
  }

  /** String order, character by character, as `Ord for String` compares. */
  predicate Below(x: string, y: string)
  {
    x == [] || (y != [] && (x[0] < y[0] || (x[0] == y[0] && Below(x[1..], y[1..]))))
  }

  lemma {:induction false} BelowTotal(x: string, y: string)
    ensures Below(x, y) || Below(y, x)
  {
    if x != [] && y != [] && x[0] == y[0] {
      BelowTotal(x[1..], y[1..]);
    }
  }

  predicate SortedByAllergen(list: seq<Pair>)
  {
    forall k :: 0 < k < |list| ==> Below(list[k - 1].0, list[k].0)
  }

  function Insert(p: Pair, list: seq<Pair>): seq<Pair>
  {
    if list == [] || Below(p.0, list[0].0) then [p] + list else [list[0]] + Insert(p, list[1..])
  }

  /** `sort_unstable_by` on the allergen names. */
  function SortByAllergen(list: seq<Pair>): seq<Pair>
  {
    if list == [] then [] else Insert(list[0], SortByAllergen(list[1..]))
  }

  lemma {:induction false} InsertOrders(p: Pair, list: seq<Pair>)
    requires SortedByAllergen(list)
    ensures SortedByAllergen(Insert(p, list))
    ensures Insert(p, list) != [] && (Insert(p, list)[0] == p || (list != [] && Insert(p, list)[0] == list[0]))
  {
    if list != [] && !Below(p.0, list[0].0) {
      BelowTotal(p.0, list[0].0);
      InsertOrders(p, list[1..]);
    }
  }

  lemma {:induction false} InsertPermutes(p: Pair, list: seq<Pair>)
    ensures multiset(Insert(p, list)) == multiset(list) + multiset{p}
  {
    if list != [] && !Below(p.0, list[0].0) {
      InsertPermutes(p, list[1..]);
      assert list == [list[0]] + list[1..];
    }
  }

  /** The sort orders the list by allergen. */
  lemma {:induction false} SortOrders(list: seq<Pair>)
    ensures SortedByAllergen(SortByAllergen(list))
  {
    if list != [] {
      SortOrders(list[1..]);
      InsertOrders(list[0], SortByAllergen(list[1..]));
    }
  }

  /** The sort keeps the list's pairs. */
  lemma {:induction false} SortPermutes(list: seq<Pair>)
    ensures multiset(SortByAllergen(list)) == multiset(list)
  {
    if list != [] {
      SortPermutes(list[1..]);
      InsertPermutes(list[0], SortByAllergen(list[1..]));
      assert list == [list[0]] + list[1..];
    }
  }

  /** The ingredients of the list, in its order. */
  function Ingredients(list: seq<Pair>): (r: seq<string>)
    ensures |r| == |list|
  {
    seq(|list|, k requires 0 <= k < |list| => list[k].1)
  }

  /** How `part2` ends: the comma-joined ingredient list, or never. */
  datatype Answer = Dangerous(text: string) | Forever

  /** `part2`: the candidate sets less the safe ingredients, resolved, sorted
      by allergen and joined with commas. */
  method Part2(foods: seq<Food>) returns (r: Answer)
    ensures r.Dangerous? ==> exists list ::
      Assigns(CandidatesOf(foods), list) && AllergensOf(list) == CandidatesOf(foods).Keys &&
      SortedByAllergen(list) && r.text == Join(Ingredients(list), ',')
    ensures r == Forever ==> exists m, list :: Stuck(CandidatesOf(foods), m, list)
  {
    var safe, mappings := Shared(foods);
    var stripped := Subtract(mappings, safe);
    SafeApart(foods);
    forall a | a in mappings
      ensures mappings[a] - safe == mappings[a]
    {
    }
    assert stripped == mappings;
    var list, done := Resolve(stripped);
    if !done {
      return Forever;
    }
    var sorted := SortByAllergen(list);
    SortOrders(list);
    SortPermutes(list);
    SortKeeps(mappings, list, sorted);
    return Dangerous(Join(Ingredients(sorted), ','));
  }

  /** A reordered list assigns the same pairs. */
  lemma SortKeeps(c: Candidates, list: seq<Pair>, sorted: seq<Pair>)
    requires Assigns(c, list) && multiset(sorted) == multiset(list)
    ensures Assigns(c, sorted) && AllergensOf(sorted) == AllergensOf(list)
  {
    forall p
      ensures p in sorted <==> p in list
    {
      assert p in sorted <==> p in multiset(sorted);
      assert p in list <==> p in multiset(list);
    }
  }
}
