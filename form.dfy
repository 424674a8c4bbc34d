/** The assessment form: its eleven string-valued fields, the default field
    set, the JSON body it is posted as, the option sets of its selects and the
    fields the browser requires before it lets the form be submitted. */
module Form {
  import opened Wrappers

  /** The `name` attribute of each control of the form. */
  datatype FieldName =
    | Age | Gender | Height | Weight | ApHi | ApLo
    | Cholesterol | Gluc | Smoke | Alco | Active

  /** The JSON key of each field, which is also its control's `name`. */
  function Key(f: FieldName): string {
    match f
    case Age => "age"
    case Gender => "gender"
    case Height => "height"
    case Weight => "weight"
    case ApHi => "ap_hi"
    case ApLo => "ap_lo"
    case Cholesterol => "cholesterol"
    case Gluc => "gluc"
    case Smoke => "smoke"
    case Alco => "alco"
    case Active => "active"
  }

  /** The eleven JSON keys. */
  const Keys: set<string> :=
    {"age", "gender", "height", "weight", "ap_hi", "ap_lo",
     "cholesterol", "gluc", "smoke", "alco", "active"}

  /** The field whose control is named `key`, if any. */
  function FieldOf(key: string): (r: Option<FieldName>)
    ensures r.Some? <==> key in Keys
    ensures r.Some? ==> Key(r.value) == key
  {
    if key == "age" then Some(Age)
    else if key == "gender" then Some(Gender)
    else if key == "height" then Some(Height)
    else if key == "weight" then Some(Weight)
    else if key == "ap_hi" then Some(ApHi)
    else if key == "ap_lo" then Some(ApLo)
    else if key == "cholesterol" then Some(Cholesterol)
    else if key == "gluc" then Some(Gluc)
    else if key == "smoke" then Some(Smoke)
    else if key == "alco" then Some(Alco)
    else if key == "active" then Some(Active)
    else None
  }

  /** Every field has its own key, and the key leads back to the field. */
  lemma KeyRoundTrip(f: FieldName)
    ensures Key(f) in Keys && FieldOf(Key(f)) == Some(f)
  {
  }

  /** The form's state: every field holds whatever string its control
      produced; nothing is parsed or checked here. */
  datatype FormData = FormData(
    age: string, gender: string, height: string, weight: string,
    apHi: string, apLo: string, cholesterol: string, gluc: string,
    smoke: string, alco: string, active: string)
  {
    function Get(f: FieldName): string {
      match f
      case Age => age
      case Gender => gender
      case Height => height
      case Weight => weight
      case ApHi => apHi
      case ApLo => apLo
      case Cholesterol => cholesterol
      case Gluc => gluc
      case Smoke => smoke
      case Alco => alco
      case Active => active
    }

    /** `{...formData, [name]: value}`: field `f` becomes `v`, and the other
        ten fields keep their values. */
    function With(f: FieldName, v: string): (r: FormData)
      ensures r.Get(f) == v
      ensures forall g :: g != f ==> r.Get(g) == Get(g)
    {
      match f
      case Age => this.(age := v)
      case Gender => this.(gender := v)
      case Height => this.(height := v)
      case Weight => this.(weight := v)
      case ApHi => this.(apHi := v)
      case ApLo => this.(apLo := v)
      case Cholesterol => this.(cholesterol := v)
      case Gluc => this.(gluc := v)
      case Smoke => this.(smoke := v)
      case Alco => this.(alco := v)
      case Active => this.(active := v)
    }

    /** The JSON object the form is posted as: one string member per field
        under the field's key, with no number coercion. */
    function Payload(): (m: map<string, string>)
      ensures m.Keys == Keys
      ensures forall f :: Key(f) in m && m[Key(f)] == Get(f)
    {
      map["age" := age, "gender" := gender, "height" := height,
          "weight" := weight, "ap_hi" := apHi, "ap_lo" := apLo,
          "cholesterol" := cholesterol, "gluc" := gluc, "smoke" := smoke,
          "alco" := alco, "active" := active]
    }
  }

  /** Two field sets that agree on every field are the same field set. */
  lemma {:induction false} Extensionality(a: FormData, b: FormData)
    requires forall f :: a.Get(f) == b.Get(f)
    ensures a == b
  {
    assert a.Get(Age) == b.Get(Age) && a.Get(Gender) == b.Get(Gender);
    assert a.Get(Height) == b.Get(Height) && a.Get(Weight) == b.Get(Weight);
    assert a.Get(ApHi) == b.Get(ApHi) && a.Get(ApLo) == b.Get(ApLo);
    assert a.Get(Cholesterol) == b.Get(Cholesterol) && a.Get(Gluc) == b.Get(Gluc);
    assert a.Get(Smoke) == b.Get(Smoke) && a.Get(Alco) == b.Get(Alco);
    assert a.Get(Active) == b.Get(Active);
  }

  /** Writing a field twice keeps only the second value; writing back the
      value a field already has changes nothing. */
  lemma WithOverwrites(d: FormData, f: FieldName, v: string, w: string)
    ensures d.With(f, v).With(f, w) == d.With(f, w)
    ensures d.With(f, d.Get(f)) == d
  {
    Extensionality(d.With(f, v).With(f, w), d.With(f, w));
    Extensionality(d.With(f, d.Get(f)), d);
  }

  /** Writes to two different fields commute. */
  lemma WithCommutes(d: FormData, f: FieldName, v: string, g: FieldName, w: string)
    requires f != g
    ensures d.With(f, v).With(g, w) == d.With(g, w).With(f, v)
  {
    Extensionality(d.With(f, v).With(g, w), d.With(g, w).With(f, v));
  }

  /** The service's reading of a body: the eleven members, each under its
      key, when all of them are present. */
  function FromPayload(m: map<string, string>): (r: Option<FormData>)
    ensures r.Some? <==> Keys <= m.Keys
    ensures r.Some? ==> forall f :: Key(f) in m && r.value.Get(f) == m[Key(f)]
  {
    if Keys <= m.Keys then
      Some(FormData(m["age"], m["gender"], m["height"], m["weight"],
                    m["ap_hi"], m["ap_lo"], m["cholesterol"], m["gluc"],
                    m["smoke"], m["alco"], m["active"]))
    else None
  }

  /** The body determines the field set: reading the eleven keys back gives
      the form that was posted. */
  lemma PayloadRoundTrip(d: FormData)
    ensures FromPayload(d.Payload()) == Some(d)
  {
  }

  /** The field set the form starts with and is reset to. */
  const Defaults: FormData :=
    FormData("", "1", "", "", "", "", "1", "1", "0", "0", "1")

  /** One `<option>` of a select: the value it submits and the caption it shows. */
  datatype SelectOption = SelectOption(value: string, caption: string)

  const GenderOptions: seq<SelectOption> :=
    [SelectOption("1", "Male"), SelectOption("2", "Female")]

  const CholesterolOptions: seq<SelectOption> :=
    [SelectOption("1", "Normal"), SelectOption("2", "Above Normal"),
     SelectOption("3", "Well Above Normal")]

  const GlucoseOptions: seq<SelectOption> :=
    [SelectOption("1", "Normal"), SelectOption("2", "Above Normal"),
     SelectOption("3", "Well Above Normal")]

  const YesNoOptions: seq<SelectOption> :=
    [SelectOption("0", "No"), SelectOption("1", "Yes")]

  /** The options of the select that edits `f`; a number input has none. */
  function Options(f: FieldName): seq<SelectOption> {
    match f
    case Gender => GenderOptions
    case Cholesterol => CholesterolOptions
    case Gluc => GlucoseOptions
    case Smoke | Alco | Active => YesNoOptions
    case Age | Height | Weight | ApHi | ApLo => []
  }

  function Values(opts: seq<SelectOption>): set<string> {
    set i | 0 <= i < |opts| :: opts[i].value
  }

  /** The values a select lets the user choose. */
  lemma OptionValues()
    ensures Values(GenderOptions) == {"1", "2"}
    ensures Values(CholesterolOptions) == {"1", "2", "3"}
    ensures Values(GlucoseOptions) == {"1", "2", "3"}
    ensures Values(YesNoOptions) == {"0", "1"}
  {
    assert GenderOptions[0].value == "1" && GenderOptions[1].value == "2";
    assert CholesterolOptions[0].value == "1" && CholesterolOptions[1].value == "2"
      && CholesterolOptions[2].value == "3";
    assert GlucoseOptions[0].value == "1" && GlucoseOptions[1].value == "2"
      && GlucoseOptions[2].value == "3";
    assert YesNoOptions[0].value == "0" && YesNoOptions[1].value == "1";
  }

  /** Only the five number inputs carry the `required` attribute. */
  predicate Required(f: FieldName) {
    f in {Age, Height, Weight, ApHi, ApLo}
  }

  /** A field is required exactly when it is a number input rather than a
      select. */
  lemma RequiredIffNumberInput(f: FieldName)
    ensures Required(f) <==> Options(f) == []
  {
  }

  /** Every categorical field holds one of its select's values. */
  predicate WellFormed(d: FormData) {
    forall f :: Options(f) != [] ==> d.Get(f) in Values(Options(f))
  }

  /** The defaults are choices the selects offer. */
  lemma DefaultsWellFormed()
    ensures WellFormed(Defaults)
  {
    OptionValues();
    assert forall f :: Options(f) != [] ==> Defaults.Get(f) in Values(Options(f));
  }

  /** A select can only produce one of its options, and a number input any
      string; so every edit that a control can make keeps the categorical
      fields inside their option sets. */
  lemma EditKeepsWellFormed(d: FormData, f: FieldName, v: string)
    requires WellFormed(d)
    requires Options(f) != [] ==> v in Values(Options(f))
    ensures WellFormed(d.With(f, v))
  {
  }

  /** The browser submits the form only when no required field is empty. */
  predicate Submittable(d: FormData) {
    forall f :: Required(f) ==> d.Get(f) != ""
  }

  /** A freshly reset form cannot be submitted before the five number fields
      are filled. */
  lemma DefaultsNotSubmittable()
    ensures !Submittable(Defaults)
    ensures forall f :: Required(f) ==> Defaults.Get(f) == ""
  {
    assert Required(Age) && Defaults.Get(Age) == "";
  }
}
