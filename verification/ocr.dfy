/**
  Classifying what the OCR engine read off a blood-pressure monitor photo: a
  reading whose values are implausibly low (a digit was probably missed) is
  flagged as unlikely, a failed read becomes an error response, and the upload
  handler only accepts a first multipart field named "image".
 */
module Ocr {
  import opened Wrappers

  /** Rust's `i32`. */
  newtype i32 = x: int | -0x8000_0000 <= x < 0x8000_0000

  datatype BloodPressureReading = BloodPressureReading(systolic: i32, diastolic: i32, pulse: i32)

  /** The OCR engine's failure; its content plays no part here. */
  datatype ProcessingError = ProcessingError(detail: string)

  datatype BloodPressureReadingResponse =
    | Reading(systolic: i32, diastolic: i32, pulse: i32)
    | ReadingError(description: string)
    | UnlikelyReading(systolic: i32, diastolic: i32, pulse: i32)

  // The lowest values a reading can plausibly show.
  const MinSystolic: i32 := 50
  const MinDiastolic: i32 := 40
  const MinPulse: i32 := 40

  /** A reading whose every value reaches its floor. */
  predicate Plausible(reading: BloodPressureReading)
  {
    MinSystolic <= reading.systolic && MinDiastolic <= reading.diastolic && MinPulse <= reading.pulse
  }

  /** `is_unlikely_reading`: the three comparisons in turn, each strict. */
  function IsUnlikelyReading(reading: BloodPressureReading): (unlikely: bool)
    ensures unlikely <==> !Plausible(reading)
  {
    if reading.systolic < 50 then true
    else if reading.diastolic < 40 then true
    else if reading.pulse < 40 then true
    else false
  }

  /** The comparisons are strict: values exactly at the floors are not unlikely, and
      one below any floor is. */
  lemma ThresholdsAreStrict(s: i32, d: i32, p: i32)
    ensures !IsUnlikelyReading(BloodPressureReading(50, 40, 40))
    ensures IsUnlikelyReading(BloodPressureReading(49, d, p))
    ensures IsUnlikelyReading(BloodPressureReading(s, 39, p))
    ensures IsUnlikelyReading(BloodPressureReading(s, d, 39))
  {
  }

  /** Lowering any value of an unlikely reading keeps it unlikely. */
  lemma UnlikelyIsDownwardClosed(a: BloodPressureReading, b: BloodPressureReading)
    requires IsUnlikelyReading(a)
    requires b.systolic <= a.systolic && b.diastolic <= a.diastolic && b.pulse <= a.pulse
    ensures IsUnlikelyReading(b)
  {
  }

  /** The reading a response carries, if any. */
  function ValuesOf(response: BloodPressureReadingResponse): Option<BloodPressureReading>
  {
    match response
    case Reading(s, d, p) => Some(BloodPressureReading(s, d, p))
    case UnlikelyReading(s, d, p) => Some(BloodPressureReading(s, d, p))
    case ReadingError(_) => None
  }

  /** `map_ocr_result`: a failed read is a `ReadingError`; a reading becomes an
      `UnlikelyReading` exactly when it is unlikely and a `Reading` otherwise, in both
      cases carrying its three values unchanged. */
  function MapOcrResult(result: Result<BloodPressureReading, ProcessingError>): (r: BloodPressureReadingResponse)
    ensures r.ReadingError? <==> result.Err?
    ensures result.Err? ==> r == ReadingError("Could not detect reading.")
    ensures result.Ok? ==> (r.UnlikelyReading? <==> IsUnlikelyReading(result.value))
    ensures result.Ok? ==> ValuesOf(r) == Some(result.value)
  {
    match result
    case Err(_) => ReadingError("Could not detect reading.")
    case Ok(reading) =>
      if IsUnlikelyReading(reading) then
        UnlikelyReading(reading.systolic, reading.diastolic, reading.pulse)
      else
        Reading(reading.systolic, reading.diastolic, reading.pulse)
  }

  // ---------------------------------------------------------------------------
  // Upload handler

  const BadRequest := 400
  const InternalServerError := 500
  const ImageFieldName := "image"

  datatype MultipartError = MultipartError(detail: string)

  /** A multipart field: its name, if it has one, and its body once read. */
  datatype MultipartField = MultipartField(name: Option<string>, contents: Result<seq<bv8>, MultipartError>)

  /** The first multipart field was read, exists, is named "image" and its body was read. */
  predicate AcceptedUpload(next: Result<Option<MultipartField>, MultipartError>)
  {
    next.Ok? && next.value.Some? && next.value.value.name == Some(ImageFieldName)
    && next.value.value.contents.Ok?
  }

  /** `run_ocr` with the multipart stream reduced to its first field (`next`), the OCR
      engine as an oracle (`engine`) and the blocking task's completion as an input
      (`taskCompleted`). */
  function RunOcr(
    next: Result<Option<MultipartField>, MultipartError>,
    engine: seq<bv8> -> Result<BloodPressureReading, ProcessingError>,
    taskCompleted: bool): (r: Result<BloodPressureReadingResponse, int>)
    ensures next == Ok(None) ==> r == Err(BadRequest)
    ensures next.Ok? && next.value.Some? && next.value.value.name != Some(ImageFieldName) ==> r == Err(BadRequest)
    ensures r == Err(BadRequest) <==> !AcceptedUpload(next)
    ensures AcceptedUpload(next) && !taskCompleted ==> r == Err(InternalServerError)
    ensures r.Ok? ==> AcceptedUpload(next) && r.value == MapOcrResult(engine(next.value.value.contents.value))
    ensures AcceptedUpload(next) && taskCompleted ==> r == Ok(MapOcrResult(engine(next.value.value.contents.value)))
  {
    match next
    case Err(_) => Err(BadRequest)
    case Ok(None) => Err(BadRequest)
    case Ok(Some(field)) =>
      if field.name != Some(ImageFieldName) then Err(BadRequest)
      else
        match field.contents
        case Err(_) => Err(BadRequest)
        case Ok(bytes) =>
          if !taskCompleted then Err(InternalServerError)
          else Ok(MapOcrResult(engine(bytes)))
  }
}
