/**
  The tasting-record form: a `TeaRecord` held as component state and edited
  one field at a time by the inputs, sliders, tag badges and the flavor
  wheel, and a submit that checks the two required fields before handing the
  record to the caller and closing.  The caller's `onSave`/`onClose`
  callbacks and the toasts are recorded, in order, as effects.
 */
module TeaRecordForm {
  import opened TeaTypes
  import opened FlavorToggle

  /** The record the form starts from. */
  const InitialRecord: TeaRecord := TeaRecord(
    name := "", teaType := "", origin := "", year := "", grade := "",
    weight := 7.0, waterTemp := 95.0, steepTime := 30.0, rounds := 1.0, rating := 4.0,
    notes := "", flavorTags := [], brewingMethod := "")

  // ------------------------------------------------------------- sliders

  /** A slider's range and step. */
  datatype Slider = Slider(min: real, max: real, step: real)

  const WeightSlider: Slider := Slider(3.0, 15.0, 0.5)
  const WaterTempSlider: Slider := Slider(70.0, 100.0, 5.0)
  const SteepTimeSlider: Slider := Slider(10.0, 300.0, 10.0)
  const RoundsSlider: Slider := Slider(1.0, 20.0, 1.0)
  const RatingSlider: Slider := Slider(1.0, 5.0, 0.5)

  /** A value the slider can produce: in its range and a whole number of steps above its minimum. */
  predicate OnSlider(v: real, s: Slider)
    requires s.step > 0.0
  {
    var steps := (v - s.min) / s.step;
    s.min <= v <= s.max && steps == steps.Floor as real
  }

  /** Every numeric field of the record holds a value its slider can produce. */
  predicate SlidersHold(r: TeaRecord)
  {
    && OnSlider(r.weight, WeightSlider)
    && OnSlider(r.waterTemp, WaterTempSlider)
    && OnSlider(r.steepTime, SteepTimeSlider)
    && OnSlider(r.rounds, RoundsSlider)
    && OnSlider(r.rating, RatingSlider)
  }

  /** The initial record starts with no flavor tags and every default on its slider. */
  lemma InitialRecordDefaults()
    ensures InitialRecord.flavorTags == []
    ensures InitialRecord.weight == 7.0 && InitialRecord.waterTemp == 95.0 && InitialRecord.steepTime == 30.0
    ensures InitialRecord.rounds == 1.0 && InitialRecord.rating == 4.0
    ensures SlidersHold(InitialRecord)
  {
    assert (7.0 - 3.0) / 0.5 == 8.0;
    assert (95.0 - 70.0) / 5.0 == 5.0;
    assert (30.0 - 10.0) / 10.0 == 2.0;
    assert (1.0 - 1.0) / 1.0 == 0.0;
    assert (4.0 - 1.0) / 0.5 == 6.0;
  }

  // --------------------------------------------------------- field edits

  /** The fields of a record. */
  datatype Field =
    | NameField | TypeField | OriginField | YearField | GradeField | WeightField | WaterTempField
    | SteepTimeField | RoundsField | RatingField | NotesField | FlavorTagsField | BrewingMethodField

  /** The value of one field, whatever its type. */
  datatype Value = Text(text: string) | Number(number: real) | Tags(tags: seq<string>)

  function Get(r: TeaRecord, f: Field): Value
  {
    match f
    case NameField => Text(r.name)
    case TypeField => Text(r.teaType)
    case OriginField => Text(r.origin)
    case YearField => Text(r.year)
    case GradeField => Text(r.grade)
    case WeightField => Number(r.weight)
    case WaterTempField => Number(r.waterTemp)
    case SteepTimeField => Number(r.steepTime)
    case RoundsField => Number(r.rounds)
    case RatingField => Number(r.rating)
    case NotesField => Text(r.notes)
    case FlavorTagsField => Tags(r.flavorTags)
    case BrewingMethodField => Text(r.brewingMethod)
  }

  /**
    What one input handler does: the text inputs and selects, the sliders
    (their first value), the notes area, and the flavor wheel's callback,
    which hands over a whole new tag list.
   */
  datatype Edit =
    | SetName(name: string)
    | SetType(teaType: string)
    | SetOrigin(origin: string)
    | SetYear(year: string)
    | SetGrade(grade: string)
    | SetBrewingMethod(brewingMethod: string)
    | SetWeight(weight: real)
    | SetWaterTemp(waterTemp: real)
    | SetSteepTime(steepTime: real)
    | SetRounds(rounds: real)
    | SetRating(rating: real)
    | SetNotes(notes: string)
    | SetFlavorTags(flavorTags: seq<string>)

  /** The field an edit writes. */
  function FieldOf(e: Edit): Field
  {
    match e
    case SetName(_) => NameField
    case SetType(_) => TypeField
    case SetOrigin(_) => OriginField
    case SetYear(_) => YearField
    case SetGrade(_) => GradeField
    case SetBrewingMethod(_) => BrewingMethodField
    case SetWeight(_) => WeightField
    case SetWaterTemp(_) => WaterTempField
    case SetSteepTime(_) => SteepTimeField
    case SetRounds(_) => RoundsField
    case SetRating(_) => RatingField
    case SetNotes(_) => NotesField
    case SetFlavorTags(_) => FlavorTagsField
  }

  /** The value an edit writes. */
  function ValueOf(e: Edit): Value
  {
    match e
    case SetName(v) => Text(v)
    case SetType(v) => Text(v)
    case SetOrigin(v) => Text(v)
    case SetYear(v) => Text(v)
    case SetGrade(v) => Text(v)
    case SetBrewingMethod(v) => Text(v)
    case SetWeight(v) => Number(v)
    case SetWaterTemp(v) => Number(v)
    case SetSteepTime(v) => Number(v)
    case SetRounds(v) => Number(v)
    case SetRating(v) => Number(v)
    case SetNotes(v) => Text(v)
    case SetFlavorTags(v) => Tags(v)
  }

  /** `{ ...prev, field: value }`: the edited field takes the new value and every other field keeps its own. */
  function Apply(r: TeaRecord, e: Edit): (r': TeaRecord)
    ensures Get(r', FieldOf(e)) == ValueOf(e)
    ensures forall f :: f != FieldOf(e) ==> Get(r', f) == Get(r, f)
  {
    match e
    case SetName(v) => r.(name := v)
    case SetType(v) => r.(teaType := v)
    case SetOrigin(v) => r.(origin := v)
    case SetYear(v) => r.(year := v)
    case SetGrade(v) => r.(grade := v)
    case SetBrewingMethod(v) => r.(brewingMethod := v)
    case SetWeight(v) => r.(weight := v)
    case SetWaterTemp(v) => r.(waterTemp := v)
    case SetSteepTime(v) => r.(steepTime := v)
    case SetRounds(v) => r.(rounds := v)
    case SetRating(v) => r.(rating := v)
    case SetNotes(v) => r.(notes := v)
    case SetFlavorTags(v) => r.(flavorTags := v)
  }

  /** Two records that agree on every field are the same record. */
  lemma RecordsEqualByFields(a: TeaRecord, b: TeaRecord)
    requires forall f :: Get(a, f) == Get(b, f)
    ensures a == b
  {
    assert Get(a, NameField) == Get(b, NameField) && Get(a, TypeField) == Get(b, TypeField);
    assert Get(a, OriginField) == Get(b, OriginField) && Get(a, YearField) == Get(b, YearField);
    assert Get(a, GradeField) == Get(b, GradeField) && Get(a, WeightField) == Get(b, WeightField);
    assert Get(a, WaterTempField) == Get(b, WaterTempField) && Get(a, SteepTimeField) == Get(b, SteepTimeField);
    assert Get(a, RoundsField) == Get(b, RoundsField) && Get(a, RatingField) == Get(b, RatingField);
    assert Get(a, NotesField) == Get(b, NotesField) && Get(a, FlavorTagsField) == Get(b, FlavorTagsField);
    assert Get(a, BrewingMethodField) == Get(b, BrewingMethodField);
  }

  /** Of two edits to the same field only the later one shows. */
  lemma LastEditWins(r: TeaRecord, e1: Edit, e2: Edit)
    requires FieldOf(e1) == FieldOf(e2)
    ensures Apply(Apply(r, e1), e2) == Apply(r, e2)
  {
    forall f ensures Get(Apply(Apply(r, e1), e2), f) == Get(Apply(r, e2), f) {
    }
    RecordsEqualByFields(Apply(Apply(r, e1), e2), Apply(r, e2));
  }

  /** Edits to different fields can be made in either order. */
  lemma EditsCommute(r: TeaRecord, e1: Edit, e2: Edit)
    requires FieldOf(e1) != FieldOf(e2)
    ensures Apply(Apply(r, e1), e2) == Apply(Apply(r, e2), e1)
  {
    forall f ensures Get(Apply(Apply(r, e1), e2), f) == Get(Apply(Apply(r, e2), e1), f) {
    }
    RecordsEqualByFields(Apply(Apply(r, e1), e2), Apply(Apply(r, e2), e1));
  }

  /** An edit a widget of the form can produce: a slider only reports values on its own grid. */
  predicate FromWidget(e: Edit)
  {
    match e
    case SetWeight(v) => OnSlider(v, WeightSlider)
    case SetWaterTemp(v) => OnSlider(v, WaterTempSlider)
    case SetSteepTime(v) => OnSlider(v, SteepTimeSlider)
    case SetRounds(v) => OnSlider(v, RoundsSlider)
    case SetRating(v) => OnSlider(v, RatingSlider)
    case _ => true
  }

  /** Edits the widgets produce keep every numeric field on its slider. */
  lemma WidgetEditKeepsSliders(r: TeaRecord, e: Edit)
    requires SlidersHold(r) && FromWidget(e)
    ensures SlidersHold(Apply(r, e))
  {
    var r' := Apply(r, e);
    assert Get(r', WeightField) == Number(r'.weight);
    assert Get(r', WaterTempField) == Number(r'.waterTemp);
    assert Get(r', SteepTimeField) == Number(r'.steepTime);
    assert Get(r', RoundsField) == Number(r'.rounds);
    assert Get(r', RatingField) == Number(r'.rating);
  }

  // ------------------------------------------------------------ display

  /** `c` repeated `n` times. */
  function Repeat(c: char, n: nat): (s: string)
    ensures |s| == n
    ensures forall i :: 0 <= i < n ==> s[i] == c
  {
    if n == 0 then "" else [c] + Repeat(c, n - 1)
  }

  /** The rating's star string: one star per whole point. */
  function Stars(rating: real): (s: string)
    requires rating >= 0.0
    ensures |s| == rating.Floor
    ensures forall i :: 0 <= i < |s| ==> s[i] == '★'
  {
    Repeat('★', rating.Floor)
  }

  // ------------------------------------------------------------- submit

  /** What the form asks of its environment. */
  datatype Effect =
    | Toast(title: string, description: string, destructive: bool)
    | Saved(record: TeaRecord)
    | Closed

  const MissingTitle: string := "請填寫必要資訊"
  const MissingDescription: string := "茶品名稱和茶類為必填項目"
  const SavedTitle: string := "品飲記錄已保存"
  const SavedSuffix: string := " 的品飲記錄已成功保存"

  /** The record can be saved: both required fields are non-empty. */
  predicate Complete(r: TeaRecord)
  {
    r.name != "" && r.teaType != ""
  }

  /**
    The effects of a submit: an incomplete record only raises the
    destructive "required fields" toast; a complete one is saved, the save
    is confirmed by a toast naming the tea, and the form is closed.
   */
  function SubmitEffects(r: TeaRecord): (effects: seq<Effect>)
    ensures Saved(r) in effects <==> Complete(r)
    ensures Closed in effects <==> Complete(r)
    ensures forall e :: e in effects && e.Saved? ==> e.record == r
    ensures !Complete(r) ==> |effects| == 1 && effects[0].Toast? && effects[0].destructive
    ensures Complete(r) ==> effects[0] == Saved(r) && effects[|effects| - 1] == Closed
    ensures Complete(r) ==> |effects| == 3 && effects[1].Toast? && !effects[1].destructive && effects[1].title == SavedTitle
    ensures Complete(r) ==> effects[1].description == r.name + SavedSuffix
    ensures !Complete(r) ==> effects == [Toast(MissingTitle, MissingDescription, true)]
  {
    if r.name == "" || r.teaType == "" then
      [Toast(MissingTitle, MissingDescription, true)]
    else
      [Saved(r), Toast(SavedTitle, r.name + SavedSuffix, false), Closed]
  }

  /** The form component: its record state and the effects it has caused so far. */
  class Form {
    var formData: TeaRecord
    var effects: seq<Effect>

    constructor ()
      ensures formData == InitialRecord && effects == []
    {
      formData := InitialRecord;
      effects := [];
    }

    /** One input handler's functional update of the record. */
    method Edit(e: Edit)
      modifies this
      ensures formData == Apply(old(formData), e)
      ensures effects == old(effects)
    {
      formData := Apply(formData, e);
    }

    /** A tag badge: toggles its flavor in `flavorTags` and touches no other field. */
    method ToggleFlavor(flavor: string)
      modifies this
      ensures formData == Apply(old(formData), SetFlavorTags(Toggle(old(formData).flavorTags, flavor)))
      ensures effects == old(effects)
    {
      formData := formData.(flavorTags := Toggle(formData.flavorTags, flavor));
    }

    /** The save button: the required-field guard, then save, confirm and close. */
    method Submit()
      modifies this
      ensures formData == old(formData)
      ensures effects == old(effects) + SubmitEffects(old(formData))
    {
      if formData.name == "" || formData.teaType == "" {
        effects := effects + [Toast(MissingTitle, MissingDescription, true)];
        return;
      }
      effects := effects + [Saved(formData)];
      effects := effects + [Toast(SavedTitle, formData.name + SavedSuffix, false)];
      effects := effects + [Closed];
    }

    /** The cancel button and dismissing the dialog close the form without saving. */
    method Cancel()
      modifies this
      ensures formData == old(formData)
      ensures effects == old(effects) + [Closed]
    {
      effects := effects + [Closed];
    }
  }
}
