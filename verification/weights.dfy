/** The heuristic portion weight: a fixed per-class average in grams plus a
    bounded random jitter of up to 40% of that average. */
module WeightEstimator {
  import opened Wrappers
  import opened Errors

  /** Average portion weight in grams of each Food-101 class. The worker
      writes it as one literal; here it is three blocks, in the same order,
      so that each block can be checked entry by entry. */
  const FoodAvgWeightG: map<string, nat> := TablePart1 + TablePart2 + TablePart3

  const TablePart1: map<string, nat> := map[
      "apple_pie" := 150, "baby_back_ribs" := 400, "baklava" := 80,
      "beef_carpaccio" := 120, "beef_tartare" := 130, "beet_salad" := 180,
      "beignets" := 90, "bibimbap" := 450, "bread_pudding" := 200,
      "breakfast_burrito" := 250, "bruschetta" := 120, "caesar_salad" := 220,
      "cannoli" := 100, "caprese_salad" := 200, "carrot_cake" := 140,
      "ceviche" := 160, "cheesecake" := 150, "cheese_plate" := 180,
      "chicken_curry" := 300, "chicken_quesadilla" := 240, "chicken_wings" := 220,
      "chocolate_cake" := 150, "chocolate_mousse" := 120, "churros" := 100,
      "clam_chowder" := 300, "club_sandwich" := 250, "crab_cakes" := 180,
      "creme_brulee" := 120, "croque_madame" := 230, "cup_cakes" := 90,
      "deviled_eggs" := 100, "donuts" := 90, "dumplings" := 180,
      "edamame" := 150
    ]

  const TablePart2: map<string, nat> := map[
      "eggs_benedict" := 220, "escargots" := 120, "falafel" := 180,
      "filet_mignon" := 250, "fish_and_chips" := 350, "foie_gras" := 80,
      "french_fries" := 150, "french_onion_soup" := 300, "french_toast" := 220,
      "fried_calamari" := 200, "fried_rice" := 300, "frozen_yogurt" := 180,
      "garlic_bread" := 130, "gnocchi" := 260, "greek_salad" := 220,
      "grilled_cheese_sandwich" := 200, "grilled_salmon" := 260, "guacamole" := 120,
      "gyoza" := 160, "hamburger" := 260, "hot_and_sour_soup" := 320,
      "hot_dog" := 180, "huevos_rancheros" := 280, "hummus" := 150,
      "ice_cream" := 150, "lasagna" := 280, "lobster_bisque" := 280,
      "lobster_roll_sandwich" := 260, "macaroni_and_cheese" := 300, "macarons" := 60,
      "miso_soup" := 250, "mussels" := 280, "nachos" := 300,
      "omelette" := 220
    ]

  const TablePart3: map<string, nat> := map[
      "onion_rings" := 150, "oysters" := 180, "pad_thai" := 320,
      "paella" := 350, "pancakes" := 250, "panna_cotta" := 130,
      "peking_duck" := 350, "pho" := 400, "pizza" := 350,
      "pork_chop" := 280, "poutine" := 320, "prime_rib" := 350,
      "pulled_pork_sandwich" := 260, "ramen" := 380, "ravioli" := 260,
      "red_velvet_cake" := 150, "risotto" := 300, "samosa" := 160,
      "sashimi" := 180, "scallops" := 180, "seaweed_salad" := 160,
      "shrimp_and_grits" := 320, "spaghetti_bolognese" := 320, "spaghetti_carbonara" := 320,
      "spring_rolls" := 160, "steak" := 500, "strawberry_shortcake" := 180,
      "sushi" := 200, "tacos" := 220, "takoyaki" := 160,
      "tiramisu" := 150, "tuna_tartare" := 140, "waffles" := 250
    ]

  /** The smallest average in the table (macarons). */
  const MinAvgWeightG: nat := 60

  /** `int(b * 0.4)`: the largest jitter for base weight `b`, i.e. the
      floor of two fifths of `b`. */
  function MaxJitter(b: nat): (j: nat)
    ensures 5 * j <= 2 * b < 5 * j + 5
  {
    (2 * b) / 5
  }

  /** `randint(lo, hi)`, inclusive on both ends. The generator's state is
      injected as `u`: every draw the generator can make is some `u`. */
  function RandInt(lo: int, hi: int, u: nat): (r: int)
    requires lo <= hi
    ensures lo <= r <= hi
  {
    lo + u % (hi - lo + 1)
  }

  /** Every value in the range is a possible draw, so fixing `u` restricts
      nothing: the draw `r` comes from the entropy `r - lo`. */
  lemma RandIntCovers(lo: int, hi: int, r: int)
    requires lo <= r <= hi
    ensures RandInt(lo, hi, r - lo) == r
  {
  }

  /** Every average in the table is at least 60 grams, and a multiple of 5,
      so two fifths of it is a whole number and truncating `b * 0.4` loses
      nothing. */
  ghost predicate Plausible(b: nat) {
    b >= MinAvgWeightG && 5 * MaxJitter(b) == 2 * b
  }

  lemma Part1Plausible()
    ensures forall c :: c in TablePart1 ==> Plausible(TablePart1[c])
  {
  }

  lemma Part2Plausible()
    ensures forall c :: c in TablePart2 ==> Plausible(TablePart2[c])
  {
  }

  lemma Part3Plausible()
    ensures forall c :: c in TablePart3 ==> Plausible(TablePart3[c])
  {
  }

  lemma TablePlausible()
    ensures forall c :: c in FoodAvgWeightG ==> FoodAvgWeightG[c] >= MinAvgWeightG
    ensures forall c :: c in FoodAvgWeightG ==> 5 * MaxJitter(FoodAvgWeightG[c]) == 2 * FoodAvgWeightG[c]
  {
    Part1Plausible();
    Part2Plausible();
    Part3Plausible();
    forall c | c in FoodAvgWeightG
      ensures Plausible(FoodAvgWeightG[c])
    {
      if c in TablePart3 {
      } else if c in TablePart2 {
      } else {
        assert c in TablePart1;
      }
    }
  }

  /** The weight expression of the result builder for class `cls` with
      draw entropy `u`: the average plus a jitter in [0, MaxJitter]. The
      direct index into the table fails for a class outside it, before any
      draw is made. */
  function Estimate(cls: string, u: nat): (r: Result<nat, Failure>)
    ensures r.Err? <==> cls !in FoodAvgWeightG
    ensures r.Err? ==> r.error == UnknownClass(cls)
    ensures r.Ok? ==> FoodAvgWeightG[cls] <= r.value <= FoodAvgWeightG[cls] + MaxJitter(FoodAvgWeightG[cls])
    ensures r.Ok? ==> r.value >= MinAvgWeightG
  {
    if cls !in FoodAvgWeightG then
      Err(UnknownClass(cls))
    else
      TablePlausible();
      var b := FoodAvgWeightG[cls];
      Ok(b + RandInt(0, MaxJitter(b), u))
  }

  /** A draw `r` within the jitter bound yields exactly `b + r`. */
  lemma EstimateWithDraw(cls: string, r: nat)
    requires cls in FoodAvgWeightG
    requires r <= MaxJitter(FoodAvgWeightG[cls])
    ensures Estimate(cls, r) == Ok(FoodAvgWeightG[cls] + r)
  {
    RandIntCovers(0, MaxJitter(FoodAvgWeightG[cls]), r);
  }
}
