/**
 * The report date: the value of cell J3 of the "RESULTADOS FB" sheet, cut to
 * its calendar date when it is a datetime, NaN when reading it failed.
 */
module Fecha {
  import opened Wrappers

  datatype Date = Date(year: int, month: int, day: int)

  /** The values openpyxl can hand back for a cell (with `data_only=True`). */
  datatype HeaderValue =
    | NoValue
    | DateTime(date: Date, secondOfDay: nat)
    | DateOnly(date: Date)
    | Words(s: string)
    | Amount(x: real)

  /** How reading J3 ended: a value, the source file missing, or any other error. */
  datatype DateRead = Loaded(value: HeaderValue) | FileNotFound | ReadFailed(message: string)

  /** The `fecha` column's value: NaN, or the (normalized) cell value. */
  datatype Fecha = NaN | Value(v: HeaderValue)

  /**
   * The date step: `None` when the file is missing (the run stops there);
   * otherwise a datetime keeps only its date, any other value is kept as it
   * is, and any other read error gives NaN.
   */
  function NormalizeFecha(read: DateRead): (r: Option<Fecha>)
    ensures r.None? <==> read.FileNotFound?
    ensures read.ReadFailed? ==> r == Some(NaN)
    ensures read.Loaded? && read.value.DateTime? ==> r == Some(Value(DateOnly(read.value.date)))
    ensures read.Loaded? && !read.value.DateTime? ==> r == Some(Value(read.value))
  {
    match read
    case FileNotFound => None
    case ReadFailed(_) => Some(NaN)
    case Loaded(DateTime(d, _)) => Some(Value(DateOnly(d)))
    case Loaded(v) => Some(Value(v))
  }

  /** The date never keeps a time of day, and normalizing its own result changes nothing. */
  lemma NormalizeFechaIdempotent(read: DateRead)
    requires !read.FileNotFound?
    ensures NormalizeFecha(read).value.Value? ==> !NormalizeFecha(read).value.v.DateTime?
    ensures NormalizeFecha(read).value.Value? ==>
      NormalizeFecha(Loaded(NormalizeFecha(read).value.v)) == NormalizeFecha(read)
  {
  }
}
