/** The configurator page: a form record (`formData`) that every input handler replaces by an
    updated copy. The record is a map from field names to values; the three handlers are the
    pure updaters below, and `HomePage` is the state cell they are applied to. */
module App {

  /** A form field's value: a checkbox's boolean, a number, a string, or `undefined`. */
  datatype Value = Bool(b: bool) | Num(n: real) | Str(s: string) | Undefined

  type FormData = map<string, Value>

  /** A field of the record; a missing field reads as `undefined`. */
  function Get(f: FormData, name: string): (v: Value)
    ensures name in f ==> v == f[name]
    ensures name !in f ==> v == Undefined
  {
    if name in f then f[name] else Undefined
  }

  /** The record the page starts with. */
  function InitialFormData(): FormData
  {
    map[
      "windowType" := Str("arched"),
      "windowWidth" := Num(350.0),
      "windowHeight" := Num(400.0),
      "borderColor" := Str("#ffffff"),
      "strokeWidth" := Num(2.0),
      "strokeColor" := Str("#000000"),
      "innerStrokeColor" := Str("#000000"),
      "innerFillColor" := Str("#cceeff"),
      "innerMargin" := Num(10.0),
      "windowBorderX" := Num(250.0),
      "windowBorderY" := Num(100.0),
      "horizontalOpeningDirection" := Undefined,
      "verticalOpeningDirection" := Undefined,
      "hasSoubassement" := Bool(false),
      "typeSoubassement" := Str(""),
      "hasSoubassementVitre" := Bool(false),
      "soubassementVitreMargin" := Num(10.0),
      "baseHeight" := Num(80.0),
      "soubassementMargin" := Num(15.0),
      "soubassementMarginPersonnalisee" := Num(15.0),
      "soubassementColor" := Str("#ffffff"),
      "soubassementStrokeWidth" := Num(2.0),
      "showPetitsBois" := Bool(false),
      "petitsBoisCountX" := Num(2.0),
      "petitsBoisCountY" := Num(2.0),
      "petitsBoisStrokeColor" := Str("#000000"),
      "petitsBoisStrokeWidth" := Num(2.0),
      "petitsBoisStyle" := Str("standard"),
      "hasTraverse" := Bool(false),
      "traverseCountX" := Num(1.0),
      "traverseCountY" := Num(1.0),
      "traverseWidth" := Num(6.0),
      "arcType" := Str("leger"),
      "showWidthCote" := Bool(true),
      "showHeightCote" := Bool(true)
    ]
  }

  /** The parts of a change event's target the generic handler reads. */
  datatype Target = Target(name: string, inputType: string, value: string, checked: bool)

  // ---------------------------------------------------------------- the generic handler

  /** `handleChange`: the field named by the input takes the checkbox's state, the number the
      input's text parses to (`Number`, passed in as `number`), or the text itself; every other
      field keeps its value. */
  function Changed(prev: FormData, t: Target, number: string -> real): (next: FormData)
    ensures next.Keys == prev.Keys + {t.name}
    ensures forall k :: k in prev && k != t.name ==> next[k] == prev[k]
    ensures t.inputType == "checkbox" ==> next[t.name] == Bool(t.checked)
    ensures t.inputType != "checkbox" && t.inputType == "number" ==> next[t.name] == Num(number(t.value))
    ensures t.inputType != "checkbox" && t.inputType != "number" ==> next[t.name] == Str(t.value)
  {
    prev[t.name := if t.inputType == "checkbox" then Bool(t.checked)
                   else if t.inputType == "number" then Num(number(t.value))
                   else Str(t.value)]
  }

  /** Changing a field is idempotent, and a later change of the same field overrides an
      earlier one. */
  lemma ChangedLastWins(f: FormData, t1: Target, t2: Target, number: string -> real)
    requires t1.name == t2.name
    ensures Changed(Changed(f, t1, number), t2, number) == Changed(f, t2, number)
    ensures Changed(Changed(f, t1, number), t1, number) == Changed(f, t1, number)
  {
  }

  /** Changes of two different fields commute. */
  lemma ChangedCommute(f: FormData, t1: Target, t2: Target, number: string -> real)
    requires t1.name != t2.name
    ensures Changed(Changed(f, t1, number), t2, number) == Changed(Changed(f, t2, number), t1, number)
  {
  }

  // ---------------------------------------------------------------- the base-type handler

  /** `handleSoubassementTypeChange`: the chosen type is recorded, there is a base exactly when
      a type is chosen and a glazed base exactly for "vitre"; the solid and glazed types have
      no margin, while "avec_marge" and the empty choice restore the saved custom margin.
      Every other field, the saved margin included, keeps its value. */
  function SoubassementTypeChanged(prev: FormData, typeSelected: string): (next: FormData)
    ensures next.Keys == prev.Keys + {"typeSoubassement", "hasSoubassement", "hasSoubassementVitre", "soubassementMargin"}
    ensures next["typeSoubassement"] == Str(typeSelected)
    ensures next["hasSoubassement"] == Bool(typeSelected != "")
    ensures next["hasSoubassementVitre"] == Bool(typeSelected == "vitre")
    ensures typeSelected == "plein" || typeSelected == "vitre" ==> next["soubassementMargin"] == Num(0.0)
    ensures typeSelected != "plein" && typeSelected != "vitre" ==>
      next["soubassementMargin"] == Get(prev, "soubassementMarginPersonnalisee")
    ensures forall k :: k in prev && k !in {"typeSoubassement", "hasSoubassement", "hasSoubassementVitre", "soubassementMargin"} ==>
      next[k] == prev[k]
  {
    var hasSoubassement := typeSelected != "";
    var newMargin :=
      if typeSelected == "avec_marge" then Get(prev, "soubassementMarginPersonnalisee")
      else if typeSelected == "plein" || typeSelected == "vitre" then Num(0.0)
      else Get(prev, "soubassementMarginPersonnalisee");
    var hasVitre := typeSelected == "vitre";
    prev["typeSoubassement" := Str(typeSelected)]["hasSoubassement" := Bool(hasSoubassement)]
        ["hasSoubassementVitre" := Bool(hasVitre)]["soubassementMargin" := newMargin]
  }

  /** Choosing a base type only depends on the last choice: choosing twice is choosing once,
      whatever was chosen before. */
  lemma TypeChangeLastWins(f: FormData, t1: string, t2: string)
    ensures SoubassementTypeChanged(SoubassementTypeChanged(f, t1), t2) == SoubassementTypeChanged(f, t2)
  {
    var g := SoubassementTypeChanged(f, t1);
    assert Get(g, "soubassementMarginPersonnalisee") == Get(f, "soubassementMarginPersonnalisee");
  }

  // ---------------------------------------------------------------- the custom-margin handler

  /** `handleMarginChange`: the number typed becomes both the current and the saved custom
      base margin; every other field keeps its value. */
  function MarginChanged(prev: FormData, value: string, number: string -> real): (next: FormData)
    ensures next.Keys == prev.Keys + {"soubassementMargin", "soubassementMarginPersonnalisee"}
    ensures next["soubassementMargin"] == next["soubassementMarginPersonnalisee"] == Num(number(value))
    ensures forall k :: k in prev && k != "soubassementMargin" && k != "soubassementMarginPersonnalisee" ==>
      next[k] == prev[k]
  {
    var newMargin := number(value);
    prev["soubassementMargin" := Num(newMargin)]["soubassementMarginPersonnalisee" := Num(newMargin)]
  }

  /** A custom margin survives switching to a solid or glazed base and back: after typing a
      margin, any detour through other base types ends with that margin restored when
      "avec_marge" is chosen again. */
  lemma CustomMarginRestored(f: FormData, value: string, number: string -> real, detour: string)
    ensures var g := SoubassementTypeChanged(SoubassementTypeChanged(MarginChanged(f, value, number), detour), "avec_marge");
      g["soubassementMargin"] == Num(number(value)) && g["hasSoubassement"] == Bool(true) &&
      g["hasSoubassementVitre"] == Bool(false)
  {
    var m := MarginChanged(f, value, number);
    var d := SoubassementTypeChanged(m, detour);
    assert Get(d, "soubassementMarginPersonnalisee") == Num(number(value));
  }

  // ---------------------------------------------------------------- consistency of the base fields

  /** The fields that describe the base. */
  predicate BaseField(name: string)
  {
    name in {"typeSoubassement", "hasSoubassement", "hasSoubassementVitre", "soubassementMargin",
             "soubassementMarginPersonnalisee"}
  }

  /** The base fields agree with the chosen type: a base exactly when a type is chosen, glazed
      exactly for "vitre", no margin for the solid and glazed types and the saved custom margin
      for "avec_marge". */
  predicate Coherent(f: FormData)
  {
    var t := Get(f, "typeSoubassement");
    t.Str? &&
    Get(f, "hasSoubassement") == Bool(t.s != "") &&
    Get(f, "hasSoubassementVitre") == Bool(t.s == "vitre") &&
    (t.s == "plein" || t.s == "vitre" ==> Get(f, "soubassementMargin") == Num(0.0)) &&
    (t.s == "avec_marge" ==> Get(f, "soubassementMargin") == Get(f, "soubassementMarginPersonnalisee"))
  }

  /** The page starts coherent. */
  lemma InitialCoherent()
    ensures Coherent(InitialFormData())
  {
    var f := InitialFormData();
    assert Get(f, "typeSoubassement") == Str("");
    assert Get(f, "hasSoubassement") == Bool(false);
    assert Get(f, "hasSoubassementVitre") == Bool(false);
  }

  /** Choosing a base type always yields a coherent record. */
  lemma TypeChangeCoherent(f: FormData, typeSelected: string)
    ensures Coherent(SoubassementTypeChanged(f, typeSelected))
  {
    var g := SoubassementTypeChanged(f, typeSelected);
    assert Get(g, "typeSoubassement") == Str(typeSelected);
    assert Get(g, "soubassementMargin") == g["soubassementMargin"];
    if typeSelected == "avec_marge" {
      assert Get(g, "soubassementMarginPersonnalisee") == Get(f, "soubassementMarginPersonnalisee");
    }
  }

  /** Editing the custom margin, whose input is only shown for the "avec_marge" base, keeps the
      record coherent. */
  lemma MarginChangeCoherent(f: FormData, value: string, number: string -> real)
    requires Coherent(f) && Get(f, "typeSoubassement") == Str("avec_marge")
    ensures Coherent(MarginChanged(f, value, number))
  {
    var m := MarginChanged(f, value, number);
    assert Get(m, "typeSoubassement") == Get(f, "typeSoubassement");
    assert Get(m, "hasSoubassement") == Get(f, "hasSoubassement");
    assert Get(m, "hasSoubassementVitre") == Get(f, "hasSoubassementVitre");
  }

  /** The names of the inputs the form hands to the generic handler, the base-height input
      under the name it is written with (see `BaseHeightInputAsWritten`). */
  function ChangeInputs(): (names: set<string>)
    ensures forall name :: name in names ==> !BaseField(name)
  {
    {"windowType", "windowWidth", "windowHeight", "borderColor", "innerFillColor", "innerMargin",
     "arcType", "showPetitsBois", "petitsBoisCountX", "petitsBoisCountY", "hasTraverse",
     "traverseCountY", "traverseCountX", "traverseWidth", "soubassementHeight",
     "horizontalOpeningDirection", "verticalOpeningDirection", "showWidthCote", "showHeightCote"}
  }

  /** Editing a field that is not a base field, as every input of the generic handler is, keeps
      the record coherent. */
  lemma ChangeCoherent(f: FormData, t: Target, number: string -> real)
    requires Coherent(f) && !BaseField(t.name)
    ensures Coherent(Changed(f, t, number))
  {
    var c := Changed(f, t, number);
    assert Get(c, "typeSoubassement") == Get(f, "typeSoubassement");
    assert Get(c, "hasSoubassement") == Get(f, "hasSoubassement");
    assert Get(c, "hasSoubassementVitre") == Get(f, "hasSoubassementVitre");
    assert Get(c, "soubassementMargin") == Get(f, "soubassementMargin");
    assert Get(c, "soubassementMarginPersonnalisee") == Get(f, "soubassementMarginPersonnalisee");
  }

  // ---------------------------------------------------------------- the base-height input

  /** The base-height input AS WRITTEN: a number input named "soubassementHeight" (while it
      displays `baseHeight`). */
  function BaseHeightInputAsWritten(value: string): (t: Target)
    ensures t.inputType == "number" && t.value == value && t.name != "baseHeight"
  {
    Target("soubassementHeight", "number", value, false)
  }

  /** The base-height input as evidently intended: named after the field it displays. */
  function BaseHeightInput(value: string): (t: Target)
    ensures t.inputType == "number" && t.value == value && t.name == "baseHeight"
  {
    Target("baseHeight", "number", value, false)
  }

  /** As written, typing into the base-height input never changes `baseHeight`, the field both
      renderers take the base height from: it only adds an unread "soubassementHeight" field. */
  lemma BaseHeightInputAsWrittenIgnored(f: FormData, value: string, number: string -> real)
    ensures var g := Changed(f, BaseHeightInputAsWritten(value), number);
      Get(g, "baseHeight") == Get(f, "baseHeight") && g["soubassementHeight"] == Num(number(value))
  {
  }

  /** With the intended name, the typed number becomes the base height, and the base fields
      stay coherent. */
  lemma BaseHeightInputSetsBaseHeight(f: FormData, value: string, number: string -> real)
    ensures var g := Changed(f, BaseHeightInput(value), number);
      Get(g, "baseHeight") == Num(number(value)) && (Coherent(f) ==> Coherent(g))
  {
    if Coherent(f) {
      ChangeCoherent(f, BaseHeightInput(value), number);
    }
  }

  // ---------------------------------------------------------------- the page's state

  /** The page's `formData` state cell; each handler replaces the record by its updater's
      result. Every change the form can make keeps the base fields coherent. */
  class HomePage {
    var formData: FormData

    predicate Valid()
      reads this
    {
      Coherent(formData)
    }

    constructor()
      ensures formData == InitialFormData()
      ensures Valid()
    {
      formData := InitialFormData();
      InitialCoherent();
    }

    method HandleChange(t: Target, number: string -> real)
      modifies this
      ensures formData == Changed(old(formData), t, number)
      ensures old(Valid()) && t.name in ChangeInputs() ==> Valid()
    {
      if Valid() && t.name in ChangeInputs() {
        ChangeCoherent(formData, t, number);
      }
      formData := Changed(formData, t, number);
    }

    method HandleSoubassementTypeChange(typeSelected: string)
      modifies this
      ensures formData == SoubassementTypeChanged(old(formData), typeSelected)
      ensures Valid()
    {
      TypeChangeCoherent(formData, typeSelected);
      formData := SoubassementTypeChanged(formData, typeSelected);
    }

    method HandleMarginChange(value: string, number: string -> real)
      modifies this
      ensures formData == MarginChanged(old(formData), value, number)
      ensures old(Valid()) && Get(old(formData), "typeSoubassement") == Str("avec_marge") ==> Valid()
    {
      if Valid() && Get(formData, "typeSoubassement") == Str("avec_marge") {
        MarginChangeCoherent(formData, value, number);
      }
      formData := MarginChanged(formData, value, number);
    }
  }
}
