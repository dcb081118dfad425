/**
 * The brand / model / year picker of one comparison card: three selections
 * (the empty string meaning "nothing chosen") and a searching flag. A search
 * is allowed only when all three are chosen; it hands the car id
 * "brand-model-year" to the card's selection callback.
 */
module CarForm {
  import opened Wrappers
  import opened NumericText

  /** The fixed brand options, in display order. */
  const Brands: seq<string> := [
    "Audi", "BMW", "Mercedes-Benz", "Volkswagen", "Ford", "Toyota",
    "Honda", "Nissan", "Hyundai", "Kia", "Peugeot", "Renault", "Fiat"
  ]

  /** The fixed year options, newest first. */
  const Years: seq<string> := ["2024", "2023", "2022", "2021", "2020", "2019", "2018"]

  /** The model names that follow the brand in every model option. */
  const ModelSuffixes: seq<string> := ["Serie 1", "Serie 3", "X1", "X3", "Compact"]

  /** JavaScript truthiness of a string: only the empty string is falsy. */
  predicate Chosen(s: string)
  {
    s != ""
  }

  /** The model options offered for a brand: none until a brand is chosen. */
  function ModelsFor(brand: string): (ms: seq<string>)
    ensures !Chosen(brand) ==> ms == []
    ensures Chosen(brand) ==> |ms| == |ModelSuffixes| == 5
    ensures forall i :: 0 <= i < |ms| ==> ms[i] == brand + " " + ModelSuffixes[i]
  {
    if Chosen(brand) then
      [brand + " Serie 1", brand + " Serie 3", brand + " X1", brand + " X3", brand + " Compact"]
    else []
  }

  /** Every model option starts with the brand and a space. */
  lemma ModelsStartWithBrand(brand: string)
    ensures forall i :: 0 <= i < |ModelsFor(brand)| ==>
      |ModelsFor(brand)[i]| > |brand| && ModelsFor(brand)[i][..|brand| + 1] == brand + " "
  {
    var ms := ModelsFor(brand);
    forall i | 0 <= i < |ms|
      ensures |ms[i]| > |brand| && ms[i][..|brand| + 1] == brand + " "
    {
      assert ms[i] == (brand + " ") + ModelSuffixes[i];
    }
  }

  /** The options of one brand are pairwise different (they serve as list keys). */
  lemma ModelsDistinct(brand: string)
    ensures forall i, j :: 0 <= i < j < |ModelsFor(brand)| ==> ModelsFor(brand)[i] != ModelsFor(brand)[j]
  {
    var ms := ModelsFor(brand);
    forall i, j | 0 <= i < j < |ms|
      ensures ms[i] != ms[j]
    {
      var p := brand + " ";
      assert ms[i] == p + ModelSuffixes[i] && ms[j] == p + ModelSuffixes[j];
      assert ModelSuffixes[i] != ModelSuffixes[j];
      assert ms[i][|p|..] == ModelSuffixes[i];
      assert ms[j][|p|..] == ModelSuffixes[j];
    }
  }

  /** Thirteen brands, and no brand is offered twice. */
  lemma BrandsFixed()
    ensures |Brands| == 13
    ensures forall i, j :: 0 <= i < j < |Brands| ==> Brands[i] != Brands[j]
  {
  }

  /** Seven years, the decimal texts of 2024 down to 2018. */
  lemma YearsFixed()
    ensures |Years| == 7
    ensures forall i :: 0 <= i < |Years| ==> Years[i] == NatText(2024 - i)
  {
    YearTexts();
    assert Years == [NatText(2024), NatText(2023), NatText(2022), NatText(2021),
                     NatText(2020), NatText(2019), NatText(2018)];
  }

  lemma YearTexts()
    ensures NatText(2024) == "2024" && NatText(2023) == "2023" && NatText(2022) == "2022"
    ensures NatText(2021) == "2021" && NatText(2020) == "2020"
    ensures NatText(2019) == "2019" && NatText(2018) == "2018"
  {
  }

  /** The identifier a search hands to the card. */
  function CarId(brand: string, model: string, year: string): (id: string)
    ensures |id| == |brand| + |model| + |year| + 2
    ensures id[..|brand|] == brand && id[|brand|] == '-'
    ensures id[|brand| + 1..|brand| + 1 + |model|] == model
    ensures id[|id| - |year|..] == year && id[|id| - |year| - 1] == '-'
  {
    brand + "-" + model + "-" + year
  }

  /**
   * For a fixed brand and years without a dash, the identifier determines the
   * model and the year, even when the model itself contains dashes.
   */
  lemma CarIdDetermines(brand: string, m1: string, y1: string, m2: string, y2: string)
    requires '-' !in y1 && '-' !in y2
    requires CarId(brand, m1, y1) == CarId(brand, m2, y2)
    ensures m1 == m2 && y1 == y2
  {
    var id := CarId(brand, m1, y1);
    assert y1 == id[|id| - |y1|..] == y2;
    assert m1 == id[|brand| + 1..|brand| + 1 + |m1|] == m2;
  }

  /** Without a fixed brand the identifier is ambiguous: a dash may belong to the brand or the model. */
  lemma CarIdAmbiguous()
    ensures CarId("Mercedes-Benz", "C", "2024") == CarId("Mercedes", "Benz-C", "2024")
  {
  }

  /** The state of one picker (`useState` slots). */
  class Form {
    var selectedBrand: string
    var selectedModel: string
    var selectedYear: string
    var isSearching: bool

    constructor ()
      ensures selectedBrand == "" && selectedModel == "" && selectedYear == ""
      ensures !isSearching
    {
      selectedBrand, selectedModel, selectedYear := "", "", "";
      isSearching := false;
    }

    /** The model options derived from the current brand. */
    function Models(): (ms: seq<string>)
      reads this
      ensures selectedBrand == "" ==> ms == []
      ensures selectedBrand != "" ==> |ms| == 5
      ensures forall i :: 0 <= i < |ms| ==> ms[i] == selectedBrand + " " + ModelSuffixes[i]
    {
      ModelsFor(selectedBrand)
    }

    /** `isFormValid`: all three selections are made. */
    function IsFormValid(): (b: bool)
      reads this
      ensures b <==> selectedBrand != "" && selectedModel != "" && selectedYear != ""
    {
      Chosen(selectedBrand) && Chosen(selectedModel) && Chosen(selectedYear)
    }

    /** The search button's `disabled={!isFormValid || isLoading || isSearching}`, negated. */
    function SearchEnabled(isLoading: bool): (b: bool)
      reads this
      ensures b <==> IsFormValid() && !isLoading && !isSearching
      ensures b ==> selectedBrand != "" && selectedModel != "" && selectedYear != ""
    {
      !(!IsFormValid() || isLoading || isSearching)
    }

    /** The brand picker's `onChange`: the new brand, and the model is cleared. */
    method ChangeBrand(value: string)
      modifies this
      ensures selectedBrand == value && selectedModel == ""
      ensures selectedYear == old(selectedYear) && isSearching == old(isSearching)
    {
      selectedBrand := value;
      selectedModel := "";
    }

    /** The model picker's `onChange`. */
    method ChangeModel(value: string)
      modifies this
      ensures selectedModel == value
      ensures selectedBrand == old(selectedBrand) && selectedYear == old(selectedYear)
      ensures isSearching == old(isSearching)
    {
      selectedModel := value;
    }

    /** The year picker's `onChange`. */
    method ChangeYear(value: string)
      modifies this
      ensures selectedYear == value
      ensures selectedBrand == old(selectedBrand) && selectedModel == old(selectedModel)
      ensures isSearching == old(isSearching)
    {
      selectedYear := value;
    }

    /**
     * `handleSearch`: with an incomplete selection nothing happens and no id is
     * handed on; otherwise the flag goes up, the id "brand-model-year" is handed
     * on, and the flag comes down again. The selections are never changed.
     */
    method HandleSearch() returns (selected: Option<string>)
      modifies this
      ensures selectedBrand == old(selectedBrand) && selectedModel == old(selectedModel)
      ensures selectedYear == old(selectedYear)
      ensures !old(IsFormValid()) ==> selected == None && isSearching == old(isSearching)
      ensures old(IsFormValid()) ==> selected == Some(CarId(selectedBrand, selectedModel, selectedYear))
      ensures old(IsFormValid()) ==> !isSearching
    {
      if !Chosen(selectedBrand) || !Chosen(selectedModel) || !Chosen(selectedYear) {
        return None;
      }
      isSearching := true;
      var carId := CarId(selectedBrand, selectedModel, selectedYear);
      selected := Some(carId);
      isSearching := false;
    }
  }

  /** Picking BMW, its "Serie 3" option and 2023 on a fresh form searches for "BMW-BMW Serie 3-2023". */
  method PickAndSearch() returns (selected: Option<string>)
    ensures selected == Some("BMW-BMW Serie 3-2023")
  {
    var form := new Form();
    form.ChangeBrand(Brands[1]);
    form.ChangeModel(form.Models()[1]);
    form.ChangeYear(Years[1]);
    selected := form.HandleSearch();
    BmwSearchId();
  }

  /** The id of the BMW search, spelled out. */
  lemma BmwSearchId()
    ensures CarId(Brands[1], ModelsFor(Brands[1])[1], Years[1]) == "BMW-BMW Serie 3-2023"
  {
    assert ModelsFor("BMW")[1] == "BMW" + " " + "Serie 3";
    assert "BMW" + "-" + ("BMW" + " " + "Serie 3") + "-" + "2023" == "BMW-BMW Serie 3-2023";
  }

  /** Changing the brand after choosing a model invalidates the form: the search then does nothing. */
  method ChangeBrandBlocksSearch() returns (selected: Option<string>, searching: bool)
    ensures selected == None && !searching
  {
    var form := new Form();
    form.ChangeBrand(Brands[0]);
    form.ChangeModel(form.Models()[0]);
    form.ChangeYear(Years[0]);
    form.ChangeBrand(Brands[1]);
    selected := form.HandleSearch();
    searching := form.isSearching;
  }
}
