/**
 * The correlation filter: it picks the request's correlation id, binds it in the MDC, sets it
 * on the response, runs the rest of the filter chain and, on every way out of the chain, removes
 * the MDC binding again.
 */
module CorrelationFilter {
  import opened Wrappers
  import opened ApplicationConstants
  import opened ExceptionHandler
  import RH = ResponseHandler

  /** The calling thread's MDC. */
  class Mdc {
    var entries: RH.Context

    constructor ()
      ensures entries == map[]
    {
      entries := map[];
    }

    /** `MDC.put(key, value)`. */
    method Put(key: string, value: string)
      modifies this
      ensures entries == old(entries)[key := value]
    {
      entries := entries[key := value];
    }

    /** `MDC.remove(key)`: a no-op when nothing is bound to `key`. */
    method Remove(key: string)
      modifies this
      ensures entries == old(entries) - {key}
    {
      entries := entries - {key};
    }
  }

  /** The response headers, as far as the filter touches them. */
  class HttpResponse {
    var headers: map<string, string>

    constructor ()
      ensures headers == map[]
    {
      headers := map[];
    }

    /** `setHeader(name, value)`: replaces any value the header had. */
    method SetHeader(name: string, value: string)
      modifies this
      ensures headers == old(headers)[name := value]
    {
      headers := headers[name := value];
    }
  }

  /** The request headers, as far as the filter reads them. */
  datatype HttpRequest = HttpRequest(headers: map<string, string>) {
    /** `getHeader(name)`: `None` for a header the request does not carry. */
    function GetHeader(name: string): Option<string> {
      if name in headers then Some(headers[name]) else None
    }
  }

  /** How the rest of the chain ended: normally, or by raising a failure. */
  datatype ChainOutcome = Normal | Raised(failure: FailureKind)

  /** What running the rest of the chain did: its outcome and the MDC and headers it left. */
  datatype ChainStep = ChainStep(outcome: ChainOutcome, context: RH.Context, responseHeaders: map<string, string>)

  /** The rest of the chain, which sees the MDC and the response headers as the filter left them. */
  type FilterChain = (RH.Context, map<string, string>) -> ChainStep

  /** `ObjectUtils.isEmpty` on a string: null or of length zero; whitespace is not trimmed. */
  predicate IsEmpty(s: Option<string>) {
    s.None? || |s.value| == 0
  }

  /**
   * The correlation id of a request: the inbound header when it is present and not empty,
   * otherwise the freshly generated `uuid`.
   */
  function ChooseId(header: Option<string>, uuid: string): (id: string)
    ensures !IsEmpty(header) ==> id == header.value
    ensures IsEmpty(header) ==> id == uuid
    ensures uuid != "" ==> id != ""
  {
    if IsEmpty(header) then uuid else header.value
  }

  /** A header made of blanks is not empty, so it is kept as it is. */
  lemma BlankHeaderKept(uuid: string)
    ensures ChooseId(Some(" "), uuid) == " "
  {
  }

  /** A chain that leaves the MDC and the response headers as it found them. */
  ghost predicate Transparent(chain: FilterChain) {
    forall ctx, headers :: chain(ctx, headers).context == ctx && chain(ctx, headers).responseHeaders == headers
  }

  /**
   * `doFilterInternal`. `uuid` is the value `UUID.randomUUID().toString()` would return; it is
   * only used when the request carries no usable correlation id.
   */
  method DoFilterInternal(request: HttpRequest, response: HttpResponse, mdc: Mdc, chain: FilterChain, uuid: string)
    returns (outcome: ChainOutcome, ghost observed: RH.Context)
    requires uuid != ""
    modifies mdc, response
    // the chain runs with the id bound in the MDC (`observed`) and set on the response
    ensures observed == old(mdc.entries)[CORRELATION_ID := ChooseId(request.GetHeader(CORRELATION_ID), uuid)]
    // so envelopes built inside the chain carry the chosen id, and those built afterwards carry ""
    ensures RH.CurrentRequestId(observed) == ChooseId(request.GetHeader(CORRELATION_ID), uuid)
    ensures RH.CurrentRequestId(mdc.entries) == ""
    ensures var id := ChooseId(request.GetHeader(CORRELATION_ID), uuid);
      var step := chain(observed, old(response.headers)[CORRELATION_ID := id]);
      // its outcome, normal or raised, is passed on unchanged
      && outcome == step.outcome
      // and afterwards the id is unbound, whatever the outcome, and nothing else of the MDC is touched
      && mdc.entries == step.context - {CORRELATION_ID}
      && response.headers == step.responseHeaders
    ensures CORRELATION_ID !in mdc.entries
    ensures Transparent(chain) ==>
      && mdc.entries == old(mdc.entries) - {CORRELATION_ID}
      && response.headers == old(response.headers)[CORRELATION_ID := ChooseId(request.GetHeader(CORRELATION_ID), uuid)]
  {
    var header := request.GetHeader(CORRELATION_ID);
    if IsEmpty(header) {
      header := Some(uuid);
    }
    var id := header.value;

    mdc.Put(CORRELATION_ID, id);
    response.SetHeader(CORRELATION_ID, id);
    // try
    observed := mdc.entries;
    var step := chain(mdc.entries, response.headers);
    mdc.entries := step.context;
    response.headers := step.responseHeaders;
    // finally
    mdc.Remove(CORRELATION_ID);
    outcome := step.outcome;
  }

  /**
   * A failure translated inside the chain carries the id the filter bound: the handler reads
   * the MDC the chain is given.
   */
  lemma TranslationSeesBoundId(f: FailureKind, ctx: RH.Context, id: string)
    ensures Handle(f, ctx[CORRELATION_ID := id]).body.requestId == id
  {
  }

  /**
   * Two requests served one after the other by the same thread, each with its own chain: the
   * second chain sees what the first chain left in the MDC, without the first correlation-id
   * binding, plus its own id; the MDC ends as the second chain leaves it, without the correlation
   * id. So keys the chains bind themselves stay bound, even a copy of the first id, and when neither chain binds any, the MDC ends as before, without any
   * earlier correlation-id binding.
   */
  method SequentialRequests(mdc: Mdc, first: HttpRequest, second: HttpRequest,
                            chain1: FilterChain, chain2: FilterChain, uuid1: string, uuid2: string)
    returns (ghost seenByFirst: RH.Context, ghost seenBySecond: RH.Context)
    requires uuid1 != "" && uuid2 != ""
    modifies mdc
    ensures var id1 := ChooseId(first.GetHeader(CORRELATION_ID), uuid1);
      var id2 := ChooseId(second.GetHeader(CORRELATION_ID), uuid2);
      && seenByFirst == old(mdc.entries)[CORRELATION_ID := id1]
      && seenBySecond == (chain1(seenByFirst, map[CORRELATION_ID := id1]).context - {CORRELATION_ID})[CORRELATION_ID := id2]
      && mdc.entries == chain2(seenBySecond, map[CORRELATION_ID := id2]).context - {CORRELATION_ID}
    ensures CORRELATION_ID in seenBySecond
    ensures seenBySecond[CORRELATION_ID] == ChooseId(second.GetHeader(CORRELATION_ID), uuid2)
    ensures CORRELATION_ID !in mdc.entries
    ensures Transparent(chain1) ==>
      seenBySecond == (old(mdc.entries) - {CORRELATION_ID})[CORRELATION_ID := ChooseId(second.GetHeader(CORRELATION_ID), uuid2)]
    ensures Transparent(chain1) && Transparent(chain2) ==>
      mdc.entries == old(mdc.entries) - {CORRELATION_ID}
  {
    var r1 := new HttpResponse();
    var o1;
    o1, seenByFirst := DoFilterInternal(first, r1, mdc, chain1, uuid1);
    var r2 := new HttpResponse();
    var o2;
    o2, seenBySecond := DoFilterInternal(second, r2, mdc, chain2, uuid2);
  }
}
