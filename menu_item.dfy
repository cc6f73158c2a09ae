/**
 * The API-row-to-`MenuItem` mapper. The storefront keeps six copies of it (the store, the
 * menu service, the home page, the menu page, the item page and the admin menu page); five
 * are identical and are modelled once as `MapApiToMenuItem`. The admin copy splits the
 * allergen field without trimming or dropping empty pieces and is modelled alongside as
 * `MapApiToMenuItemAdmin`.
 */
module MenuItems {
  import opened Wrappers
  import opened Text
  import Seqs

  /** `price: string | number` as the API sends it. */
  datatype PriceField = PriceText(text: string) | PriceNumber(value: real)

  /** A menu row as the API sends it: snake_case, nullable fields, 0/1 flags. */
  datatype ApiMenuItem = ApiMenuItem(
    id: int,
    name: string,
    description: Option<string>,
    price: PriceField,
    category: string,
    imageUrl: string,
    isVegetarian: int,
    isVegan: int,
    isSpicy: int,
    allergens: Option<string>,
    calories: Option<int>,
    protein: Option<string>,
    carbs: Option<string>,
    fat: Option<string>)

  datatype NutritionalInfo = NutritionalInfo(calories: int, protein: string, carbs: string, fat: string)

  datatype Review = Review(id: string, userName: string, rating: int, comment: string, date: string)

  /** The item shape the views use. `category` is cast, not checked, so any text may appear. */
  datatype MenuItem = MenuItem(
    id: string,
    name: string,
    description: string,
    price: real,
    category: string,
    image: string,
    isVegetarian: bool,
    isVegan: bool,
    isSpicy: bool,
    allergens: seq<string>,
    nutritionalInfo: NutritionalInfo,
    reviews: seq<Review>)

  /** A text price goes through `parseFloat`; a numeric one is kept. NaN reads as 0 here. */
  function PriceOf(p: PriceField): real {
    match p
    case PriceNumber(v) => v
    case PriceText(t) => ParseFloat(t).GetOr(0.0)
  }

  /** `.map(a => a.trim()).filter(Boolean)`: every kept piece is non-empty with no surrounding space. */
  function CleanTokens(tokens: seq<string>): (r: seq<string>)
    ensures forall t :: t in r ==> t != [] && !IsSpace(t[0]) && !IsSpace(t[|t| - 1])
    decreases |tokens|
  {
    if |tokens| == 0 then []
    else
      var t := Trim(tokens[0]);
      (if t == [] then [] else [t]) + CleanTokens(tokens[1..])
  }

  /** Trimming adds no character: pieces free of `c` stay free of `c`. */
  lemma {:induction false} CleanTokensAvoid(tokens: seq<string>, c: char)
    requires forall u :: u in tokens ==> c !in u
    ensures forall t :: t in CleanTokens(tokens) ==> c !in t
    decreases |tokens|
  {
    if |tokens| > 0 {
      assert tokens[0] in tokens;
      assert forall u :: u in tokens[1..] ==> u in tokens;
      CleanTokensAvoid(tokens[1..], c);
    }
  }

  /** No piece with a non-space character is dropped: its trimmed form is kept. */
  lemma {:induction false} CleanTokensKeep(tokens: seq<string>, u: string)
    requires u in tokens && !AllSpace(u)
    ensures Trim(u) in CleanTokens(tokens)
    decreases |tokens|
  {
    if tokens[0] != u {
      CleanTokensKeep(tokens[1..], u);
    }
  }

  /** Nothing is reordered: the kept tokens are trimmed pieces, in the order of the pieces. */
  lemma {:induction false} CleanTokensSound(tokens: seq<string>)
    ensures Seqs.SubsequenceOf(CleanTokens(tokens), Seqs.Map(tokens, Trim))
    decreases |tokens|
  {
    if |tokens| > 0 {
      var rest := tokens[1..];
      CleanTokensSound(rest);
      var t := Trim(tokens[0]);
      MapTrimCons(tokens);
      CleanTokensCons(tokens);
      if t == [] {
        assert CleanTokens(tokens) == CleanTokens(rest);
        Seqs.SubsequenceExtend(CleanTokens(rest), Seqs.Map(rest, Trim), t);
      } else {
        assert CleanTokens(tokens) == [t] + CleanTokens(rest);
        SubsequenceCons(t, CleanTokens(rest), Seqs.Map(rest, Trim));
      }
    }
  }

  /** Cleaning a list is cleaning its first token, then the rest. */
  lemma CleanTokensCons(tokens: seq<string>)
    requires |tokens| > 0
    ensures Trim(tokens[0]) == [] ==> CleanTokens(tokens) == CleanTokens(tokens[1..])
    ensures Trim(tokens[0]) != [] ==> CleanTokens(tokens) == [Trim(tokens[0])] + CleanTokens(tokens[1..])
  {
  }

  /** Exactly `.map(trim).filter(Boolean)`: trim every piece, then keep the non-empty ones. */
  lemma {:induction false} CleanTokensIsFilter(tokens: seq<string>)
    ensures CleanTokens(tokens) == Seqs.Filter(Seqs.Map(tokens, Trim), (t: string) => t != [])
    decreases |tokens|
  {
    if |tokens| > 0 {
      var rest := tokens[1..];
      CleanTokensIsFilter(rest);
      MapTrimCons(tokens);
      CleanTokensCons(tokens);
      var t := Trim(tokens[0]);
      Seqs.FilterAppend([t], Seqs.Map(rest, Trim), (u: string) => u != []);
      assert [t][1..] == [];
    }
  }

  /** Trimming every piece is trimming the first, then the rest. */
  lemma MapTrimCons(tokens: seq<string>)
    requires |tokens| > 0
    ensures Seqs.Map(tokens, Trim) == [Trim(tokens[0])] + Seqs.Map(tokens[1..], Trim)
  {
  }

  /** A common first element extends a subsequence. */
  lemma SubsequenceCons(x: string, a: seq<string>, b: seq<string>)
    requires Seqs.SubsequenceOf(a, b)
    ensures Seqs.SubsequenceOf([x] + a, [x] + b)
  {
    assert ([x] + a)[1..] == a && ([x] + b)[1..] == b;
  }

  /** Nothing is invented: each kept token is the trim of some piece. */
  lemma {:induction false} CleanTokensFrom(tokens: seq<string>, u: string)
    requires u in CleanTokens(tokens)
    ensures exists i :: 0 <= i < |tokens| && u == Trim(tokens[i])
    decreases |tokens|
  {
    var rest := tokens[1..];
    if u == Trim(tokens[0]) {
      assert 0 < |tokens|;
    } else {
      CleanTokensFrom(rest, u);
      var j :| 0 <= j < |rest| && u == Trim(rest[j]);
      assert rest[j] == tokens[j + 1];
    }
  }

  /** The allergen list of the five identical mapper copies. */
  function ParseAllergens(field: Option<string>): (r: seq<string>)
    ensures field.None? || field == Some("") ==> r == []
    ensures forall t :: t in r ==> t != [] && !IsSpace(t[0]) && !IsSpace(t[|t| - 1]) && ',' !in t
  {
    match field
    case None => []
    case Some(s) =>
      if s == "" then []
      else
        SplitPiecesFree(s, ',');
        CleanTokensAvoid(Split(s, ","), ',');
        CleanTokens(Split(s, ","))
  }

  /** Every comma-separated piece that is not blank appears, trimmed, among the allergens. */
  lemma ParseAllergensComplete(s: string, u: string)
    requires u in Split(s, ",") && !AllSpace(u)
    ensures Trim(u) in ParseAllergens(Some(s))
  {
    CleanTokensKeep(Split(s, ","), u);
  }

  /** The allergens are the field's comma pieces, trimmed, in field order, with none added. */
  lemma ParseAllergensSound(s: string, u: string)
    requires s != ""
    ensures Seqs.SubsequenceOf(ParseAllergens(Some(s)), Seqs.Map(Split(s, ","), Trim))
    ensures u in ParseAllergens(Some(s)) ==> exists i :: 0 <= i < |Split(s, ",")| && u == Trim(Split(s, ",")[i])
  {
    var pieces := Split(s, ",");
    assert ParseAllergens(Some(s)) == CleanTokens(pieces);
    CleanTokensSound(pieces);
    if u in CleanTokens(pieces) {
      CleanTokensFrom(pieces, u);
    }
  }

  /** The allergen list of the admin copy: split only. */
  function SplitAllergens(field: Option<string>): (r: seq<string>)
    ensures field.None? || field == Some("") ==> r == []
    ensures field.Some? && field.value != "" ==> Join(r, ",") == field.value
  {
    match field
    case None => []
    case Some(s) => if s == "" then [] else Split(s, ",")
  }

  /** The mapper shared by the store, the menu service and the customer-facing views. */
  function MapApiToMenuItem(row: ApiMenuItem): (m: MenuItem)
    ensures ParseInt(m.id) == Some(row.id)
    ensures forall t :: t in m.allergens ==> t != [] && !IsSpace(t[0]) && !IsSpace(t[|t| - 1]) && ',' !in t
    ensures m.reviews == []
  {
    IntToStringRoundTrip(row.id);
    MenuItem(
      IntToString(row.id),
      row.name,
      row.description.GetOr(""),
      PriceOf(row.price),
      row.category,
      row.imageUrl,
      row.isVegetarian != 0,
      row.isVegan != 0,
      row.isSpicy != 0,
      ParseAllergens(row.allergens),
      NutritionalInfo(row.calories.GetOr(0), row.protein.GetOr("0g"), row.carbs.GetOr("0g"), row.fat.GetOr("0g")),
      [])
  }

  /** The admin page's copy of the mapper. */
  function MapApiToMenuItemAdmin(row: ApiMenuItem): (m: MenuItem)
    ensures m == MapApiToMenuItem(row).(allergens := SplitAllergens(row.allergens))
  {
    MenuItem(
      IntToString(row.id),
      row.name,
      row.description.GetOr(""),
      PriceOf(row.price),
      row.category,
      row.imageUrl,
      row.isVegetarian != 0,
      row.isVegan != 0,
      row.isSpicy != 0,
      SplitAllergens(row.allergens),
      NutritionalInfo(row.calories.GetOr(0), row.protein.GetOr("0g"), row.carbs.GetOr("0g"), row.fat.GetOr("0g")),
      [])
  }

  /** The mapping step of `fetchMenu` and of every view's menu load: `data.map(mapApiToMenuItem)`. */
  function MapRows(rows: seq<ApiMenuItem>): (items: seq<MenuItem>)
    ensures |items| == |rows|
    ensures forall i :: 0 <= i < |rows| ==> items[i] == MapApiToMenuItem(rows[i])
  {
    Seqs.Map(rows, MapApiToMenuItem)
  }

  // ---------------------------------------------------------------------------
  // Properties of the mapper
  // ---------------------------------------------------------------------------

  /** Null fields take their defaults; present fields are copied; 0/1 flags become booleans. */
  lemma MapperDefaults(row: ApiMenuItem)
    ensures var m := MapApiToMenuItem(row);
      && (row.description.None? ==> m.description == "")
      && (row.description.Some? ==> m.description == row.description.value)
      && (row.calories.None? ==> m.nutritionalInfo.calories == 0)
      && (row.calories.Some? ==> m.nutritionalInfo.calories == row.calories.value)
      && (row.protein.None? ==> m.nutritionalInfo.protein == "0g")
      && (row.protein.Some? ==> m.nutritionalInfo.protein == row.protein.value)
      && (row.carbs.None? ==> m.nutritionalInfo.carbs == "0g")
      && (row.carbs.Some? ==> m.nutritionalInfo.carbs == row.carbs.value)
      && (row.fat.None? ==> m.nutritionalInfo.fat == "0g")
      && (row.fat.Some? ==> m.nutritionalInfo.fat == row.fat.value)
      && (m.isVegetarian <==> row.isVegetarian == 1) && (m.isVegan <==> row.isVegan == 1)
      && (m.isSpicy <==> row.isSpicy == 1)
    requires row.isVegetarian in {0, 1} && row.isVegan in {0, 1} && row.isSpicy in {0, 1}
  {
  }

  /** The trimmed allergen list is exactly the admin copy's pieces, trimmed, with blanks dropped. */
  lemma AllergenCopiesAgree(field: Option<string>)
    ensures ParseAllergens(field) == CleanTokens(SplitAllergens(field))
  {
  }

  /** Rows with distinct ids map to items with distinct ids. */
  lemma MappedIdsDistinct(rows: seq<ApiMenuItem>)
    requires forall i, j :: 0 <= i < j < |rows| ==> rows[i].id != rows[j].id
    ensures var items := MapRows(rows);
      forall i, j :: 0 <= i < j < |items| ==> items[i].id != items[j].id
  {
    var items := MapRows(rows);
    forall i, j | 0 <= i < j < |items| ensures items[i].id != items[j].id {
      IntToStringInjective(rows[i].id, rows[j].id);
    }
  }

  /** A decimal-string price and the equal numeric price map to the same value. */
  lemma PriceTextAndNumberAgree()
    ensures PriceOf(PriceText("12.50")) == PriceOf(PriceNumber(12.5)) == 12.5
  {
    var u := "12.50";
    assert LeadingSpaces(u) == 0;
    assert u[0..] == u;
    assert DigitRun(u[2..]) == 0;
    assert DigitRun(u[1..]) == 1;
    assert DigitRun(u) == 2;
    assert u[..2] == "12" && DigitsValue("12") == 12 by {
      assert "12"[..1] == "1";
    }
    var f := u[3..];
    assert f == "50";
    assert DigitRun(f[2..]) == 0;
    assert DigitRun(f) == 2;
    assert f[..2] == f && DigitsValue(f) == 50 by {
      assert "50"[..1] == "5";
    }
  }

  lemma SplitAllergenExample()
    ensures Split("Gluten, Dairy", ",") == ["Gluten", " Dairy"]
  {
    var parts := ["Gluten", " Dairy"];
    assert Join(parts, ",") == "Gluten, Dairy" by {
      assert parts[1..] == [" Dairy"];
    }
    assert forall t :: t in parts ==> ',' !in t;
    SplitJoin(parts, ',');
  }

  lemma TrimGlutenExample()
    ensures Trim("Gluten") == "Gluten"
  {
    TrimPadded("", "Gluten", "");
    assert "" + "Gluten" + "" == "Gluten";
  }

  lemma TrimDairyExample()
    ensures Trim(" Dairy") == "Dairy"
  {
    TrimPadded(" ", "Dairy", "");
    assert " " + "Dairy" + "" == " Dairy";
  }

  /** Cleaning two tokens is cleaning each of them. */
  lemma CleanTokensPair(x: string, y: string)
    ensures CleanTokens([x, y]) == CleanTokens([x]) + CleanTokens([y])
  {
    var pair, single := [x, y], [y];
    assert pair[1..] == single;
    assert single[1..] == [];
    assert [x][1..] == [];
  }

  lemma CleanGlutenExample()
    ensures CleanTokens(["Gluten"]) == ["Gluten"]
  {
    TrimGlutenExample();
    var first := ["Gluten"];
    assert first[1..] == [];
  }

  lemma CleanDairyExample()
    ensures CleanTokens([" Dairy"]) == ["Dairy"]
  {
    TrimDairyExample();
    var last := [" Dairy"];
    assert last[1..] == [];
  }

  lemma CleanAllergenExample()
    ensures CleanTokens(["Gluten", " Dairy"]) == ["Gluten", "Dairy"]
  {
    CleanTokensPair("Gluten", " Dairy");
    CleanGlutenExample();
    CleanDairyExample();
  }

  /** `"Gluten, Dairy"` gives `["Gluten", "Dairy"]`. */
  lemma AllergenExample()
    ensures ParseAllergens(Some("Gluten, Dairy")) == ["Gluten", "Dairy"]
  {
    var s := "Gluten, Dairy";
    assert s[0] == 'G';
    SplitAllergenExample();
    CleanAllergenExample();
  }

  /** The admin copy keeps the space: `["Gluten", " Dairy"]`. */
  lemma AdminAllergenExample()
    ensures SplitAllergens(Some("Gluten, Dairy")) == ["Gluten", " Dairy"]
  {
    var s := "Gluten, Dairy";
    assert s[0] == 'G';
    SplitAllergenExample();
  }
}
