/** `GetOptionFromRequest` of the utils package: the decoded request body with
    the timeout defaulted. */
module Network {

  import opened Base
  import Models

  /** The timeout used when a request gives none (zero). */
  const DefaultTimeout := 20

  /** The request after defaulting: a zero timeout becomes the default, every
      other field is kept. */
  function WithDefaultTimeout(p: Models.ChromeParam): (q: Models.ChromeParam)
    ensures q.input.timeout != 0
    ensures p.input.timeout != 0 ==> q == p
    ensures p.input.timeout == 0 ==> q == p.(input := p.input.(timeout := DefaultTimeout))
  {
    if p.input.timeout == 0 then p.(input := p.input.(timeout := DefaultTimeout)) else p
  }

  /** `GetOptionFromRequest`, given the outcome of decoding the body: a decoding
      error is returned as it is; otherwise the decoded request with the timeout
      defaulted. */
  method GetOptionFromRequest(decoded: Result<Models.ChromeParam>)
    returns (options: Option<Models.ChromeParam>, err: Option<Error>)
    ensures decoded.Err? ==> options.None? && err == Some(decoded.error)
    ensures decoded.Ok? ==> err.None? && options == Some(WithDefaultTimeout(decoded.value))
  {
    if decoded.Err? {
      return None, Some(decoded.error);
    }
    var param := decoded.value;
    if param.input.timeout == 0 {
      param := param.(input := param.input.(timeout := DefaultTimeout));
    }
    return Some(param), None;
  }

  /** Defaulting twice is defaulting once. */
  lemma DefaultingIdempotent(p: Models.ChromeParam)
    ensures WithDefaultTimeout(WithDefaultTimeout(p)) == WithDefaultTimeout(p)
  {
  }

  /** Defaulting changes the timeout only, and only a zero one. */
  lemma DefaultingKeepsRequest(p: Models.ChromeParam)
    ensures var q := WithDefaultTimeout(p);
      q.addUrl == p.addUrl && q.addTimeStamp == p.addTimeStamp
      && q.input.url == p.input.url && q.input.proxy == p.input.proxy
      && q.input.userAgent == p.input.userAgent && q.input.sleep == p.input.sleep
      && (q.input.timeout == p.input.timeout <==> p.input.timeout != 0)
  {
  }
}
