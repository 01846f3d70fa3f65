/** The optional value the Swift sources express with `?` and `??`. */
module Optional {

  datatype Option<+T> = None | Some(value: T) {

    /** `self ?? fallback` */
    function GetOr(fallback: T): (r: T)
      ensures Some? ==> r == value
      ensures None? ==> r == fallback
    {
      match this
      case Some(v) => v
      case None => fallback
    }
  }
}
