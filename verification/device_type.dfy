/**
 * The kind of device the app runs on, derived from UIKit's interface idiom.
 */
module DeviceTypes {

  import opened Optional

  /** `DeviceType`, an integer-backed enumeration. */
  datatype DeviceType = Phone | Pad | TV | Watch | Mac | MacCatalyst | Vision | CarPlay | Unspecified

  /** The enumeration's raw values: declaration order from 0. */
  function RawValue(t: DeviceType): (raw: nat)
    ensures raw <= 8
  {
    match t
    case Phone => 0
    case Pad => 1
    case TV => 2
    case Watch => 3
    case Mac => 4
    case MacCatalyst => 5
    case Vision => 6
    case CarPlay => 7
    case Unspecified => 8
  }

  /** `DeviceType(rawValue:)`, which an integer-backed enumeration gets
      for free. */
  function FromRawValue(raw: int): (t: Option<DeviceType>)
    ensures t.Some? <==> 0 <= raw <= 8
    ensures t.Some? ==> RawValue(t.value) == raw
  {
    if 0 <= raw <= 8
    then Some([Phone, Pad, TV, Watch, Mac, MacCatalyst, Vision, CarPlay, Unspecified][raw])
    else None
  }

  /** The raw values are 0 to 8 without repetition: each case reads back
      as itself, so distinct cases have distinct values. */
  lemma RawValueRoundTrip(a: DeviceType, b: DeviceType)
    ensures FromRawValue(RawValue(a)) == Some(a)
    ensures RawValue(a) == RawValue(b) <==> a == b
  {
  }

  /** UIKit's interface idioms, with room for idioms added later. */
  datatype UserInterfaceIdiom =
    | UnspecifiedIdiom
    | PhoneIdiom
    | PadIdiom
    | TVIdiom
    | CarPlayIdiom
    | MacIdiom
    | VisionIdiom
    | FutureIdiom(raw: int)

  /** `DeviceType(userInterfaceIdom:)`: an iPad or iPhone app running on a
      Mac is a Catalyst app, and idioms it does not know are unspecified. */
  function FromIdiom(idiom: UserInterfaceIdiom): (t: DeviceType)
    ensures t != Mac && t != Watch
    ensures idiom == PhoneIdiom <==> t == Phone
    ensures idiom == PadIdiom <==> t == Pad
    ensures idiom == TVIdiom <==> t == TV
    ensures idiom == CarPlayIdiom <==> t == CarPlay
    ensures idiom == VisionIdiom <==> t == Vision
    ensures idiom == MacIdiom <==> t == MacCatalyst
    ensures idiom == UnspecifiedIdiom || idiom.FutureIdiom? <==> t == Unspecified
  {
    match idiom
    case UnspecifiedIdiom => Unspecified
    case PhoneIdiom => Phone
    case PadIdiom => Pad
    case TVIdiom => TV
    case CarPlayIdiom => CarPlay
    case MacIdiom => MacCatalyst
    case VisionIdiom => Vision
    case FutureIdiom(_) => Unspecified
  }
}
