/**
 * The rule chains of the personalised kit page and the product filter of the
 * marketplace page, and the concerns list both of them read from the sheet.
 */
module Recommend {
  import opened Basics
  import opened PyText
  import Scoring

  // ------------------------------------------------------------------- concerns

  /** [c.strip() for c in cell.split(',') if c.strip()]: the concerns the kit page reads. */
  function ParseConcerns(cell: string): (cs: seq<string>)
    ensures forall i | 0 <= i < |cs| :: cs[i] != "" && Strip(cs[i], Whitespace) == cs[i]
  {
    StrippedPieces(Split(cell, ','));
    NonEmpty(Pieces(cell))
  }

  /** Every stripped part is its own strip. */
  lemma StrippedPieces(parts: seq<string>)
    ensures forall x | x in StripEach(parts) :: Strip(x, Whitespace) == x
  {
    var pieces := StripEach(parts);
    forall x | x in pieces ensures Strip(x, Whitespace) == x {
      var i :| 0 <= i < |pieces| && pieces[i] == x;
      assert x == Strip(parts[i], Whitespace);
    }
  }

  /** A concern the onboarding can store: non-empty, no comma, no surrounding whitespace. */
  predicate StorableConcern(c: string) {
    c != "" && ',' !in c && Strip(c, Whitespace) == c
  }

  /** The kit page reads back exactly the concerns the onboarding stored with ", ".join. */
  lemma ConcernsRoundTrip(concerns: seq<string>)
    requires forall i | 0 <= i < |concerns| :: StorableConcern(concerns[i])
    ensures ParseConcerns(CommaJoin(concerns)) == concerns
  {
    if concerns == [] {
      assert Pieces("") == [""];
    } else {
      forall i | 0 <= i < |concerns| ensures ',' !in concerns[i] {
        assert StorableConcern(concerns[i]);
      }
      PiecesOfCommaJoin(concerns);
      StrippedConcerns(concerns);
    }
  }

  lemma StrippedConcerns(concerns: seq<string>)
    requires forall i | 0 <= i < |concerns| :: StorableConcern(concerns[i])
    ensures StripEach(concerns) == concerns
    ensures NonEmpty(concerns) == concerns
  {
    var s := StripEach(concerns);
    assert forall i | 0 <= i < |s| :: s[i] == concerns[i];
  }

  // ------------------------------------------------------------------------ kit

  /** A product of the kit: its name and key ingredients. */
  datatype Product = Product(name: string, ingredients: string)

  /** One slot of the kit dict. */
  datatype KitItem = KitItem(slot: string, product: Product)

  const KitSlots: seq<string> := ["Cleanser", "AM_Serum", "Moisturizer", "Sunscreen", "PM_Treatment"]

  const ClarifyingCleanser := Product("Gel-to-Foam Clarifying Cleanser", "Salicylic Acid, Willow Bark")
  const BalmCleanser := Product("Creamy Hydrating Cleansing Balm", "Ceramides, Oat Extract")
  const GentleCleanser := Product("Gentle pH-Balanced Cleanser", "Glycerin, Niacinamide")
  const VitaminCSerum := Product("15% L-Ascorbic Acid Serum", "Vitamin C, Ferulic Acid")
  const PeptideSerum := Product("Peptide & Growth Factor Serum", "Copper Peptides, Hyaluronic Acid")
  const NiacinamideSerum := Product("Niacinamide 10% Barrier Serum", "Niacinamide, Zinc PCA")
  const GelMoisturizer := Product("Oil-Free Water Gel Moisturizer", "Hyaluronic Acid, Amino Acids")
  const RepairCream := Product("Ceramide-Rich Repair Cream", "Ceramides, Squalane")
  const MineralSpf := Product("Broad Spectrum Mineral SPF 50+", "Zinc Oxide, Tinted Formula")
  const BenzoylSpot := Product("Benzoyl Peroxide Spot Treatment", "Benzoyl Peroxide 5%")
  const Retinaldehyde := Product("Time-Release Retinaldehyde Cream", "Retinaldehyde, Bakuchiol")
  const ExfoliatingToner := Product("AHA/BHA Gentle Exfoliating Toner", "Lactic Acid, Glycolic Acid")

  /** What the kit page reads of the user's row; None is a column the row does not have. */
  datatype ProfileCells = ProfileCells(
    concerns: Option<string>,
    sensitivity: Option<string>,
    skinType: Option<string>,
    goal: Option<string>)

  function ChooseCleanser(skinType: string, concerns: seq<string>, sensitivity: string): Product {
    if Contains(skinType, "Oily") || "Acne & Breakouts" in concerns then ClarifyingCleanser
    else if Contains(skinType, "Dry") || sensitivity == "High" then BalmCleanser
    else GentleCleanser
  }

  function ChooseAmSerum(goal: string, concerns: seq<string>): Product {
    if Contains(goal, "Brightening") || "Pigmentation" in concerns then VitaminCSerum
    else if Contains(goal, "Anti-Aging") then PeptideSerum
    else NiacinamideSerum
  }

  function ChooseMoisturizer(skinType: string): Product {
    if Contains(skinType, "Oily") || Contains(skinType, "Combination") then GelMoisturizer else RepairCream
  }

  function ChoosePmTreatment(goal: string, concerns: seq<string>, score: int): Product {
    if "Acne & Breakouts" in concerns && score < 75 then BenzoylSpot
    else if "Wrinkles" in concerns || Contains(goal, "Anti-Aging") then Retinaldehyde
    else ExfoliatingToner
  }

  /** The kit dict built by personalized_kit_page, slot by slot. */
  function BuildKit(concerns: seq<string>, sensitivity: string, skinType: string, goal: string, score: int): (kit: seq<KitItem>)
    ensures |kit| == |KitSlots| && forall i | 0 <= i < |kit| :: kit[i].slot == KitSlots[i]
    ensures kit[3].product == MineralSpf
    ensures kit[0].product == ClarifyingCleanser <==> Contains(skinType, "Oily") || "Acne & Breakouts" in concerns
    ensures kit[4].product == BenzoylSpot <==> "Acne & Breakouts" in concerns && score < 75
  {
    [ KitItem("Cleanser", ChooseCleanser(skinType, concerns, sensitivity)),
      KitItem("AM_Serum", ChooseAmSerum(goal, concerns)),
      KitItem("Moisturizer", ChooseMoisturizer(skinType)),
      KitItem("Sunscreen", MineralSpf),
      KitItem("PM_Treatment", ChoosePmTreatment(goal, concerns, score)) ]
  }

  /**
   * The page: the cells are read with their defaults (Sensitivity 'Mild',
   * Skin_Type 'Combination', Goal and Concerns ''); without a concern there is
   * no kit, only the warning (None).
   */
  function PersonalizedKit(cells: ProfileCells, score: int): (kit: Option<seq<KitItem>>)
    ensures kit.None? <==> ParseConcerns(GetOr(cells.concerns, "")) == []
    ensures kit.Some? ==> var concerns := ParseConcerns(GetOr(cells.concerns, ""));
      var skinType := GetOr(cells.skinType, "Combination");
      && |kit.value| == |KitSlots| && (forall i | 0 <= i < |kit.value| :: kit.value[i].slot == KitSlots[i])
      && kit.value[3].product == MineralSpf
      && (kit.value[0].product == ClarifyingCleanser <==> Contains(skinType, "Oily") || "Acne & Breakouts" in concerns)
      && (kit.value[4].product == BenzoylSpot <==> "Acne & Breakouts" in concerns && score < 75)
  {
    var concerns := ParseConcerns(GetOr(cells.concerns, ""));
    if concerns == [] then None
    else Some(BuildKit(concerns, GetOr(cells.sensitivity, "Mild"), GetOr(cells.skinType, "Combination"),
                       GetOr(cells.goal, ""), score))
  }

  /**
   * A row without Skin_Type or Sensitivity is read as a Combination skin of
   * Mild sensitivity: the gel moisturizer, and the clarifying cleanser only
   * for acne, the gentle one otherwise.
   */
  lemma MissingCellsUseDefaults(cells: ProfileCells, score: int)
    requires cells.skinType.None? && cells.sensitivity.None?
    requires PersonalizedKit(cells, score).Some?
    ensures var kit := PersonalizedKit(cells, score).value;
      var acne := "Acne & Breakouts" in ParseConcerns(GetOr(cells.concerns, ""));
      && kit[2].product == GelMoisturizer
      && kit[0].product == if acne then ClarifyingCleanser else GentleCleanser
  {
    CombinationWords();
  }

  /** "Combination" holds neither "Oily" nor "Dry", and holds itself. */
  lemma CombinationWords()
    ensures !Contains("Combination", "Oily") && !Contains("Combination", "Dry") && Contains("Combination", "Combination")
  {
    var combination := "Combination";
    assert OccursAt(combination, combination, 0);
    var oily := "Oily";
    var dry := "Dry";
    assert oily[0] == 'O' && 'O' !in combination;
    assert dry[0] == 'D' && 'D' !in combination;
    FirstCharAbsent(combination, oily);
    FirstCharAbsent(combination, dry);
  }

  /** A string that lacks the first character of sub does not contain sub. */
  lemma FirstCharAbsent(s: string, sub: string)
    requires |sub| > 0 && sub[0] !in s
    ensures !Contains(s, sub)
  {
  }

  /** The clarifying cleanser wins over the dry-skin branch: an oily-and-dry skin type still gets it. */
  lemma ClarifyingBeatsDry(concerns: seq<string>, sensitivity: string, goal: string, score: int)
    ensures BuildKit(concerns, sensitivity, "Dry Oily", goal, score)[0].product == ClarifyingCleanser
  {
    assert OccursAt("Dry Oily", "Oily", 4);
  }

  /**
   * The AM-serum and PM-treatment rules test list membership of the bare words
   * "Pigmentation" and "Wrinkles", which no onboarding concern equals: for a
   * user whose concerns come from the onboarding options, neither ever fires.
   */
  lemma ConcernWordsNeverMatch(concerns: seq<string>, sensitivity: string, skinType: string, goal: string, score: int)
    requires forall i | 0 <= i < |concerns| :: concerns[i] in Scoring.ConcernOptions
    ensures var kit := BuildKit(concerns, sensitivity, skinType, goal, score);
      && (kit[1].product == VitaminCSerum <==> Contains(goal, "Brightening"))
      && (!("Acne & Breakouts" in concerns && score < 75) ==>
            (kit[4].product == Retinaldehyde <==> Contains(goal, "Anti-Aging")))
  {
    assert "Pigmentation" !in concerns;
    assert "Wrinkles" !in concerns;
  }

  // ------------------------------------------------------------ product filter

  /** A catalogue entry of the marketplace page. */
  datatype CatalogItem = CatalogItem(name: string, price: string, concern: string, link: string, kind: string, ingredients: string)

  datatype Field = ConcernField | KindField

  function FieldOf(p: CatalogItem, f: Field): string {
    match f
    case ConcernField => p.concern
    case KindField => p.kind
  }

  /** [p for p in items if selected == p[field]]: the matching items, with their multiplicity, in order. */
  function Keep(items: seq<CatalogItem>, f: Field, selected: string): (r: seq<CatalogItem>)
    ensures |r| <= |items|
    ensures forall i | 0 <= i < |r| :: FieldOf(r[i], f) == selected
    ensures forall p :: multiset(r)[p] == if FieldOf(p, f) == selected then multiset(items)[p] else 0
  {
    if items == [] then []
    else
      var rest := Keep(items[1..], f, selected);
      assert items == [items[0]] + items[1..];
      assert multiset(items) == multiset{items[0]} + multiset(items[1..]);
      if FieldOf(items[0], f) == selected then [items[0]] + rest else rest
  }

  /** a can be obtained from b by deleting elements: the order of what is kept is b's. */
  predicate IsSubsequence(a: seq<CatalogItem>, b: seq<CatalogItem>)
    decreases |b|
  {
    a == [] || (b != [] && ((a[0] == b[0] && IsSubsequence(a[1..], b[1..])) || IsSubsequence(a, b[1..])))
  }

  lemma {:induction false} SubsequenceTrans(a: seq<CatalogItem>, b: seq<CatalogItem>, c: seq<CatalogItem>)
    requires IsSubsequence(a, b) && IsSubsequence(b, c)
    ensures IsSubsequence(a, c)
    decreases |c|
  {
    if a != [] {
      if IsSubsequence(b, c[1..]) {
        SubsequenceTrans(a, b, c[1..]);
      } else if a[0] == b[0] && IsSubsequence(a[1..], b[1..]) {
        SubsequenceTrans(a[1..], b[1..], c[1..]);
      } else {
        SubsequenceTrans(a, b[1..], c[1..]);
      }
    }
  }

  /** The comprehension keeps the catalogue's order. */
  lemma {:induction false} KeepKeepsOrder(items: seq<CatalogItem>, f: Field, selected: string)
    ensures IsSubsequence(Keep(items, f, selected), items)
  {
    if items != [] {
      KeepKeepsOrder(items[1..], f, selected);
      var rest := Keep(items[1..], f, selected);
      if FieldOf(items[0], f) == selected {
        assert ([items[0]] + rest)[1..] == rest;
      }
    }
  }

  /** The marketplace filter: "All" leaves a criterion out, any other choice must equal the item's field. */
  function FilterProducts(items: seq<CatalogItem>, concern: string, kind: string): (r: seq<CatalogItem>)
    ensures forall p :: multiset(r)[p] ==
                        if (concern == "All" || p.concern == concern) && (kind == "All" || p.kind == kind)
                        then multiset(items)[p] else 0
  {
    var byConcern := if concern != "All" then Keep(items, ConcernField, concern) else items;
    if kind != "All" then Keep(byConcern, KindField, kind) else byConcern
  }

  /** The filtered list shows the items in catalogue order. */
  lemma FilterKeepsOrder(items: seq<CatalogItem>, concern: string, kind: string)
    ensures IsSubsequence(FilterProducts(items, concern, kind), items)
  {
    var byConcern := if concern != "All" then Keep(items, ConcernField, concern) else items;
    SubsequenceRefl(items);
    if concern != "All" {
      KeepKeepsOrder(items, ConcernField, concern);
    }
    if kind != "All" {
      KeepKeepsOrder(byConcern, KindField, kind);
      SubsequenceTrans(Keep(byConcern, KindField, kind), byConcern, items);
    }
  }

  lemma {:induction false} SubsequenceRefl(a: seq<CatalogItem>)
    ensures IsSubsequence(a, a)
  {
    if a != [] {
      SubsequenceRefl(a[1..]);
    }
  }

  /** Choosing "All" twice shows the whole catalogue, in its order. */
  lemma AllShowsEverything(items: seq<CatalogItem>)
    ensures FilterProducts(items, "All", "All") == items
  {
  }

  /** An item whose own concern is "All" (the sunscreen) is shown only when the concern filter is "All". */
  lemma AllConcernItemNeedsAllFilter(items: seq<CatalogItem>, p: CatalogItem, concern: string, kind: string)
    requires p.concern == "All" && concern != "All"
    ensures p !in FilterProducts(items, concern, kind)
  {
    assert multiset(FilterProducts(items, concern, kind))[p] == 0;
  }
}
