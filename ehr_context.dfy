/**
  The shared EHR summary: one cell, written by the upload page and read
  once (read, then cleared) by its consumer, reachable only under an
  `EhrProvider`.
 */
module EhrContext {
  import opened Common

  /** The error `useEhr` throws outside a provider. */
  const OutsideProvider := "useEhr must be used within an EhrProvider"

  /** The provider's `ehrSummary` state. */
  class EhrCell {
    var summary: Option<string>

    /** The summary starts as `null`. */
    constructor ()
      ensures summary == None
    {
      summary := None;
    }

    /** `setEhrSummary`: overwrite the held summary. */
    method SetEhrSummary(s: Option<string>)
      modifies this
      ensures summary == s
    {
      summary := s;
    }

    /** `consumeEhrSummary`: hand back the held summary and clear it. */
    method ConsumeEhrSummary() returns (r: Option<string>)
      modifies this
      ensures r == old(summary)
      ensures summary == None
    {
      r := summary;
      summary := None;
    }
  }

  /** `useEhr`: the provider's cell, or the error thrown when there is none. */
  function UseEhr(context: Option<EhrCell>): (r: Result<EhrCell>)
    ensures r.Ok? <==> context.Some?
    ensures r.Ok? ==> r.value == context.value
    ensures r.Failure? ==> r.error == OutsideProvider
  {
    match context
    case Some(cell) => Ok(cell)
    case None => Failure(OutsideProvider)
  }
}
