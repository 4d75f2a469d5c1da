/**
 * How a perceived object's marker is labelled and drawn (App.jsx:210-219).
 * The JSX writes the choice as chained conditionals on `object_class`; here the
 * same choice is also given as a lookup table keyed by class, and the two are
 * proved to agree.
 */
module MarkerStyle {
  import opened Wrappers
  import opened Messages

  datatype ObjectKind = Pedestrian | Cyclist | Vehicle

  /** The marker images `./img/person.png`, `./img/bicycle.png`, `./img/car.png`. */
  datatype Icon = PersonIcon | BicycleIcon | CarIcon

  /** The reference table: the class codes the display recognises. */
  const ClassTable: map<int, ObjectKind> := map[1 := Pedestrian, 2 := Cyclist, 3 := Vehicle]

  function KindLabel(k: ObjectKind): string
  {
    match k
    case Pedestrian => "Pedestrian"
    case Cyclist => "Cyclist"
    case Vehicle => "Vehicle"
  }

  function KindIcon(k: ObjectKind): Icon
  {
    match k
    case Pedestrian => PersonIcon
    case Cyclist => BicycleIcon
    case Vehicle => CarIcon
  }

  /**
   * The callout title `(c == 1) ? 'Pedestrian' : (c == 2) ? 'Cyclist' : (c == 3 && 'Vehicle')`;
   * the final `&&` yields `false`, which renders no text, modelled as `None`.
   */
  function Label(objectClass: int): (r: Option<string>)
    ensures r.Some? <==> objectClass in ClassTable
    ensures r.Some? ==> r.value == KindLabel(ClassTable[objectClass])
  {
    if objectClass == 1 then Some("Pedestrian")
    else if objectClass == 2 then Some("Cyclist")
    else if objectClass == 3 then Some("Vehicle")
    else None
  }

  /** The marker image, chosen by the same chain of conditionals as the label. */
  function MarkerIcon(objectClass: int): (r: Option<Icon>)
    ensures r.Some? <==> objectClass in ClassTable
    ensures r.Some? ==> r.value == KindIcon(ClassTable[objectClass])
  {
    if objectClass == 1 then Some(PersonIcon)
    else if objectClass == 2 then Some(BicycleIcon)
    else if objectClass == 3 then Some(CarIcon)
    else None
  }

  /** Every class code either gets both a label and an icon of the same kind, or neither. */
  lemma LabelAndIconAgree(objectClass: int)
    ensures Label(objectClass).Some? <==> MarkerIcon(objectClass).Some?
    ensures Label(objectClass).Some? ==>
      exists k :: KindLabel(k) == Label(objectClass).value && KindIcon(k) == MarkerIcon(objectClass).value
  {
  }

  /**
   * The pin colour exactly as written: `(c < 1 && c > 3) && 'grey'`. No number is
   * both below 1 and above 3, so the pin is never grey.
   */
  function PinColorAsWritten(objectClass: int): (r: Option<string>)
    ensures r == None
  {
    if objectClass < 1 && objectClass > 3 then Some("grey") else None
  }

  /** Class 7 is unrecognised (no label, no icon) and still does not get the grey pin. */
  lemma UnknownClassIsNotGreyAsWritten()
    ensures Label(7) == None && MarkerIcon(7) == None && PinColorAsWritten(7) == None
  {
  }

  /** The evidently intended guard `(c < 1 || c > 3) && 'grey'`: grey exactly for unrecognised classes. */
  function PinColor(objectClass: int): (r: Option<string>)
    ensures r == Some("grey") <==> objectClass !in ClassTable
    ensures r.Some? <==> Label(objectClass) == None
  {
    if objectClass < 1 || objectClass > 3 then Some("grey") else None
  }

  /** The style of one object marker: callout title, image and pin colour. */
  datatype MarkerView = MarkerView(title: Option<string>, icon: Option<Icon>, pinColor: Option<string>)

  /** An object marker as the render draws it: no marker ever gets a pin colour. */
  function ObjectMarker(o: PerceivedObject): (v: MarkerView)
    ensures o.objectClass in ClassTable ==>
      v.title == Some(KindLabel(ClassTable[o.objectClass])) && v.icon == Some(KindIcon(ClassTable[o.objectClass]))
    ensures o.objectClass !in ClassTable ==> v.title == None && v.icon == None
    ensures v.pinColor == None
  {
    MarkerView(Label(o.objectClass), MarkerIcon(o.objectClass), PinColorAsWritten(o.objectClass))
  }

  /** An object marker with the corrected pin guard: grey exactly when it has no title. */
  function CorrectedObjectMarker(o: PerceivedObject): (v: MarkerView)
    ensures v.title == ObjectMarker(o).title && v.icon == ObjectMarker(o).icon
    ensures v.pinColor == if v.title == None then Some("grey") else None
  {
    MarkerView(Label(o.objectClass), MarkerIcon(o.objectClass), PinColor(o.objectClass))
  }
}
