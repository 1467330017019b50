/** The reset-link helper of utils/email.js. It sends nothing: it renders the link
    from the configured front-end address and the raw token and always reports
    success. */
module Email {
  import opened Common

  const ResetPath := "/reset-password?token="

  datatype ResetLink = ResetLink(success: bool, resetUrl: string)

  /** A template literal renders an unset environment variable as `undefined`. */
  function Render(v: Option<string>): string {
    match v
    case Some(s) => s
    case None => "undefined"
  }

  /** `generateResetUrl(email, resetToken)`; `frontendUrl` is `FRONTEND_URL`. */
  function GenerateResetUrl(frontendUrl: Option<string>, email: string, resetToken: string): (r: ResetLink)
    ensures r.success
    ensures |r.resetUrl| == |Render(frontendUrl)| + |ResetPath| + |resetToken|
    ensures r.resetUrl[..|Render(frontendUrl)|] == Render(frontendUrl)
    ensures r.resetUrl[|Render(frontendUrl)|..|Render(frontendUrl)| + |ResetPath|] == ResetPath
    ensures r.resetUrl[|Render(frontendUrl)| + |ResetPath|..] == resetToken
  {
    var url := Render(frontendUrl) + ResetPath + resetToken;
    assert url[..|Render(frontendUrl)|] == Render(frontendUrl);
    assert url[|Render(frontendUrl)|..|Render(frontendUrl)| + |ResetPath|] == ResetPath;
    assert url[|Render(frontendUrl)| + |ResetPath|..] == resetToken;
    ResetLink(true, url)
  }

  /** The token sits verbatim at the end of the link, so it can be read back. */
  function TokenOf(frontendUrl: Option<string>, resetUrl: string): string
    requires |Render(frontendUrl)| + |ResetPath| <= |resetUrl|
  {
    resetUrl[|Render(frontendUrl)| + |ResetPath|..]
  }

  lemma TokenRoundTrip(frontendUrl: Option<string>, email: string, resetToken: string)
    ensures var url := GenerateResetUrl(frontendUrl, email, resetToken).resetUrl;
            |Render(frontendUrl)| + |ResetPath| <= |url| && TokenOf(frontendUrl, url) == resetToken
  {
  }

  /** Different tokens give different links under one front-end address. */
  lemma LinksDistinguishTokens(frontendUrl: Option<string>, e1: string, e2: string, t1: string, t2: string)
    ensures GenerateResetUrl(frontendUrl, e1, t1).resetUrl == GenerateResetUrl(frontendUrl, e2, t2).resetUrl ==> t1 == t2
  {
    TokenRoundTrip(frontendUrl, e1, t1);
    TokenRoundTrip(frontendUrl, e2, t2);
  }

  /** The address is only logged; it does not shape the result. */
  lemma EmailIrrelevant(frontendUrl: Option<string>, e1: string, e2: string, resetToken: string)
    ensures GenerateResetUrl(frontendUrl, e1, resetToken) == GenerateResetUrl(frontendUrl, e2, resetToken)
  {
  }
}
