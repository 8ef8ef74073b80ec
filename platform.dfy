/** The parts of Apple's Foundation framework that the forms call. Their
    behaviour depends on locales, time zones and IEEE floating point, so
    each one is a parameter of the model and not a definition. */
module Platform {
  import opened Wrappers

  /** A `Date`: seconds since Foundation's reference date. */
  type Instant = real

  datatype Foundation = Foundation(
    /** `Double(String)`: the number a text spells, or None. */
    parseDouble: string -> Option<real>,
    /** `Int(String)`: the integer a text spells, or None. */
    parseInt: string -> Option<int>,
    /** `String(format: "%.2f", x)`. */
    format2: real -> string,
    /** `String(Int)`: the decimal digits of an integer. */
    describeInt: int -> string,
    /** `String(Double)`: Swift's shortest text for a double. */
    describeDouble: real -> string,
    /** The annuity formula `(P * (r * pow(1 + r, n))) / (pow(1 + r, n) - 1)`
        for principal P, monthly rate r and n months. */
    annuity: (real, real, int) -> real,
    /** A `yyyy-MM-dd` formatter in the `en_US_POSIX` locale, reading. */
    isoDate: string -> Option<Instant>,
    /** The same formatter, writing. */
    isoString: Instant -> string,
    /** An `es_ES` formatter with the given `dateFormat`, reading a text. */
    dateIn: (string, string) -> Option<Instant>,
    /** An `es_ES` formatter with `dateFormat` `dd-MM-yyyy`, writing. */
    dayMonthYear: Instant -> string,
    /** `String.capitalized`. */
    capitalized: string -> string,
    /** `URL(string:) != nil`. */
    urlOk: string -> bool
  )
}
