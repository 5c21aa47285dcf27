/**
 * The text input field of the forms: how its visible label is derived from
 * the field name when none is given, the defaults of its optional props,
 * and the rule that `min` and `max` belong to number inputs only.
 */
module InputField {
  import opened Wrappers

  // ---------------------------------------------------------------------------
  // ASCII case mapping
  // ---------------------------------------------------------------------------

  predicate IsUpperAscii(c: char) { 'A' <= c <= 'Z' }
  predicate IsLowerAscii(c: char) { 'a' <= c <= 'z' }

  function ToUpperChar(c: char): (u: char)
    ensures !IsLowerAscii(u)
    ensures IsLowerAscii(c) ==> u as int == c as int - 32
    ensures !IsLowerAscii(c) ==> u == c
  {
    if IsLowerAscii(c) then (c as int - 32) as char else c
  }

  function ToLowerChar(c: char): (l: char)
    ensures !IsUpperAscii(l)
    ensures IsUpperAscii(c) ==> l as int == c as int + 32
    ensures !IsUpperAscii(c) ==> l == c
  {
    if IsUpperAscii(c) then (c as int + 32) as char else c
  }

  /** The string with every ASCII capital replaced by its small letter. */
  function ToLower(s: string): (r: string)
    ensures |r| == |s|
    ensures forall i :: 0 <= i < |s| ==> r[i] == ToLowerChar(s[i])
  {
    if s == [] then [] else [ToLowerChar(s[0])] + ToLower(s[1..])
  }

  // ---------------------------------------------------------------------------
  // The label
  // ---------------------------------------------------------------------------

  /**
   * The label derived from a field name: a name shorter than two characters
   * as it is, otherwise its first character capitalised and the rest in
   * small letters.
   */
  function DefaultLabel(name: string): (text: string)
    ensures |text| == |name|
    ensures |name| < 2 ==> text == name
    ensures |name| >= 2 ==> text[0] == ToUpperChar(name[0])
    ensures |name| >= 2 ==> forall i :: 1 <= i < |name| ==> text[i] == ToLowerChar(name[i])
  {
    if |name| < 2 then name else [ToUpperChar(name[0])] + ToLower(name[1..])
  }

  /** `label ??= …`: a supplied label, even an empty one, is kept. */
  function FieldLabel(given: Option<string>, name: string): (text: string)
    ensures given.Some? ==> text == given.value
    ensures given.None? ==> text == DefaultLabel(name)
    ensures given.None? ==> |text| == |name|
    ensures given.None? && |name| < 2 ==> text == name
  {
    given.GetOr(DefaultLabel(name))
  }

  /** Deriving the label again from a derived label changes nothing. */
  lemma DefaultLabelIdempotent(name: string)
    ensures DefaultLabel(DefaultLabel(name)) == DefaultLabel(name)
  {
    var text := DefaultLabel(name);
    if |name| >= 2 {
      var again := DefaultLabel(text);
      assert forall i :: 0 <= i < |text| ==> again[i] == text[i];
    }
  }

  /** A name is its own label exactly when it already has the label's shape. */
  lemma DefaultLabelFixedPoint(name: string)
    ensures DefaultLabel(name) == name <==>
              |name| < 2 ||
              (!IsLowerAscii(name[0]) && forall i :: 1 <= i < |name| ==> !IsUpperAscii(name[i]))
  {
    var text := DefaultLabel(name);
    if |name| >= 2 {
      if text == name {
        assert forall i :: 1 <= i < |name| ==> name[i] == text[i];
      }
    }
  }

  /** The derived label differs from the name in letter case only. */
  lemma DefaultLabelIgnoringCase(name: string)
    ensures ToLower(DefaultLabel(name)) == ToLower(name)
  {
    var text := DefaultLabel(name);
    if |name| >= 2 {
      assert forall i :: 0 <= i < |name| ==> ToLower(text)[i] == ToLower(name)[i];
    }
  }

  lemma DefaultLabelExamples()
    ensures DefaultLabel("name") == "Name"
    ensures DefaultLabel("email") == "Email"
    ensures DefaultLabel("x") == "x"
    ensures DefaultLabel("") == ""
  {
    assert ToLower("ame") == "ame";
    assert ToLower("mail") == "mail";
  }

  // ---------------------------------------------------------------------------
  // The props
  // ---------------------------------------------------------------------------

  /** Any HTML input type except "number". */
  type NonNumberType = t: string | t != "number" witness "text"

  /**
   * The two shapes of the type-related props: `min` and `max` exist only
   * on a number input, whose `type` must then be given.
   */
  datatype TypeProps =
    | OtherInput(inputType: Option<NonNumberType>)
    | NumberInput(min: Option<real>, max: Option<real>)

  datatype InputFieldProps = InputFieldProps(
    name: string,
    givenLabel: Option<string>,
    disabled: Option<bool>,
    hidden: Option<bool>,
    typeProps: TypeProps)

  /** The props the field renders with, once every default is applied. */
  datatype RenderedField = RenderedField(
    name: string,
    shownLabel: string,
    inputType: string,
    disabled: bool,
    hidden: bool,
    min: Option<real>,
    max: Option<real>)

  function RenderField(props: InputFieldProps): (f: RenderedField)
    ensures f.name == props.name
    ensures f.shownLabel == FieldLabel(props.givenLabel, props.name)
    ensures f.disabled == props.disabled.GetOr(false)
    ensures f.hidden == props.hidden.GetOr(false)
    ensures props.disabled.None? ==> !f.disabled
    ensures props.hidden.None? ==> !f.hidden
    ensures props.typeProps == OtherInput(None) ==> f.inputType == "text"
    ensures props.typeProps.OtherInput? ==>
              f.inputType == props.typeProps.inputType.GetOr("text") && f.min.None? && f.max.None?
    ensures props.typeProps.NumberInput? ==>
              f.min == props.typeProps.min && f.max == props.typeProps.max
    ensures (f.min.Some? || f.max.Some?) ==> f.inputType == "number"
    ensures f.inputType == "number" <==> props.typeProps.NumberInput?
  {
    var (inputType, min, max) :=
      match props.typeProps
      case OtherInput(t) => (t.GetOr("text"), None, None)
      case NumberInput(lo, hi) => ("number", lo, hi);
    RenderedField(
      props.name,
      FieldLabel(props.givenLabel, props.name),
      inputType,
      props.disabled.GetOr(false),
      props.hidden.GetOr(false),
      min,
      max)
  }

  /** The type-related props as an untyped object: each of them may or may not be present. */
  datatype LooseTypeProps = LooseTypeProps(inputType: Option<string>, min: Option<real>, max: Option<real>)

  /** Which loose prop objects the props type admits, and as which shape. */
  function CheckTypeProps(loose: LooseTypeProps): (checked: Option<TypeProps>)
    ensures checked.Some? <==>
              (loose.min.None? && loose.max.None?) || loose.inputType == Some("number")
  {
    if loose.inputType == Some("number") then Some(NumberInput(loose.min, loose.max))
    else if loose.min.None? && loose.max.None? then
      match loose.inputType
      case None => Some(OtherInput(None))
      case Some(t) => Some(OtherInput(Some(t)))
    else None
  }

  function Loosen(props: TypeProps): (loose: LooseTypeProps)
    ensures loose.min.Some? || loose.max.Some? ==> loose.inputType == Some("number")
  {
    match props
    case OtherInput(t) =>
      LooseTypeProps(match t case None => None case Some(s) => Some(s), None, None)
    case NumberInput(lo, hi) => LooseTypeProps(Some("number"), lo, hi)
  }

  /** Every admitted loose object is the loosened form of the shape it is admitted as. */
  lemma CheckTypePropsSound(loose: LooseTypeProps)
    requires CheckTypeProps(loose).Some?
    ensures Loosen(CheckTypeProps(loose).value) == loose
  {
  }

  /** Every shape is admitted back as itself. */
  lemma CheckTypePropsComplete(props: TypeProps)
    ensures CheckTypeProps(Loosen(props)) == Some(props)
  {
  }
}
