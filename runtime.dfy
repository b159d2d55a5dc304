/**
 * The library calls whose behaviour the access layer relies on but does not define.
 * Each is a total function passed in with the rest of the platform, so every property
 * proved below holds whatever these functions do, unless a lemma states otherwise.
 */
module Runtime {
  import opened Wrappers
  import opened Json
  import opened Guids

  datatype Platform = Platform(
    /** JsonDocument.Parse: the root element, or None where it throws JsonException. */
    parseJson: string -> Option<Json>,
    /** Guid.Parse and Guid.TryParse (the same accepted formats): None where Parse throws FormatException. */
    parseGuid: string -> Option<Guid>,
    /** JsonElement.ToString on an array or object: its raw JSON text. */
    rawText: Json -> string,
    /** The text an HttpStatusCode value interpolates to (its enum name, or the number). */
    statusName: int -> string
  )

  /** Guid.Parse reads back the lowercase 8-4-4-4-12 form that Guid.ToString writes. */
  ghost predicate AcceptsCanonicalGuids(p: Platform) {
    forall g: Guid {:trigger GuidText(g)} :: p.parseGuid(GuidText(g)) == Some(g)
  }
}
