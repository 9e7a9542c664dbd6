/** The language-model clients (`LLMClient`, `ComparisonClient`) as oracles: the reply
    to the n-th call of a run is either text or an exception raised by the backend. The
    prompt is not modelled, so a reply depends only on the position of the call. */
module Oracles {
  import opened Outcomes

  datatype Reply = Text(text: string) | Failed(message: string)

  /** The replies of one client, numbered from 0 in call order. */
  type Llm = nat -> Reply

  /** `client.generate(prompt)` as the call numbered `n`. */
  function Generate(llm: Llm, n: nat): (r: Result<string>)
    ensures r.Ok? <==> llm(n).Text?
    ensures r.Ok? ==> r.value == llm(n).text
  {
    match llm(n)
    case Text(s) => Ok(s)
    case Failed(m) => Err(Raised(m))
  }

  /** A result together with the number of model calls made to produce it. */
  datatype Called<T> = Called(result: Result<T>, calls: nat)
}
