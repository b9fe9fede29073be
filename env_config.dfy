/** The PEM wrapping NewEnv applies to the Casdoor certificate and the auth key after loading. */
module EnvConfig {
  import opened Wrappers

  const CertHeader := "-----BEGIN CERTIFICATE-----\n"
  const CertFooter := "\n-----END CERTIFICATE-----"
  const PublicKeyHeader := "-----BEGIN PUBLIC KEY-----\n"
  const PublicKeyFooter := "\n-----END PUBLIC KEY-----"

  /** The settings this step reads and writes; the other settings pass through it untouched. */
  datatype Env = Env(casdoorCertRaw: string, casdoorCert: string, authKey: string, publicKey: string)

  /** A PEM block around `body`. */
  function Wrap(header: string, body: string, footer: string): (r: string)
    ensures |r| == |header| + |body| + |footer|
    ensures r[..|header|] == header && r[|r| - |footer|..] == footer && r[|header|..|r| - |footer|] == body
  {
    header + body + footer
  }

  /** The text between a header line and a footer line, when `s` has both. */
  function Unwrap(s: string, header: string, footer: string): (r: Option<string>)
    ensures r.Some? ==> Wrap(header, r.value, footer) == s
  {
    if |s| >= |header| + |footer| && s[..|header|] == header && s[|s| - |footer|..] == footer then
      var body := s[|header|..|s| - |footer|];
      assert s == s[..|header|] + body + s[|s| - |footer|..];
      Some(body)
    else None
  }

  /** Unwrapping a wrapped value gives back exactly what was wrapped. */
  lemma UnwrapOfWrap(header: string, body: string, footer: string)
    ensures Unwrap(Wrap(header, body, footer), header, footer) == Some(body)
  {
  }

  /**
   * The step after loading: the certificate is wrapped only when its raw form is non-empty, and
   * the public key is always wrapped, even an empty auth key.
   */
  function WrapKeys(env: Env): (r: Env)
    ensures r.casdoorCertRaw == env.casdoorCertRaw && r.authKey == env.authKey
    ensures env.casdoorCertRaw != "" ==> r.casdoorCert == Wrap(CertHeader, env.casdoorCertRaw, CertFooter)
    ensures env.casdoorCertRaw == "" ==> r.casdoorCert == env.casdoorCert
    ensures r.publicKey == Wrap(PublicKeyHeader, env.authKey, PublicKeyFooter)
  {
    var withCert := if env.casdoorCertRaw != "" then env.(casdoorCert := Wrap(CertHeader, env.casdoorCertRaw, CertFooter)) else env;
    withCert.(publicKey := Wrap(PublicKeyHeader, env.authKey, PublicKeyFooter))
  }

  /** Stripping the header and footer lines gives back the raw certificate and the auth key. */
  lemma WrappedKeysReadBack(env: Env)
    ensures env.casdoorCertRaw != "" ==> Unwrap(WrapKeys(env).casdoorCert, CertHeader, CertFooter) == Some(env.casdoorCertRaw)
    ensures Unwrap(WrapKeys(env).publicKey, PublicKeyHeader, PublicKeyFooter) == Some(env.authKey)
  {
    UnwrapOfWrap(CertHeader, env.casdoorCertRaw, CertFooter);
    UnwrapOfWrap(PublicKeyHeader, env.authKey, PublicKeyFooter);
  }

  /** An empty auth key still yields a PEM block, one with an empty body. */
  lemma EmptyKeyStillWrapped(env: Env)
    requires env.authKey == ""
    ensures WrapKeys(env).publicKey == "-----BEGIN PUBLIC KEY-----\n\n-----END PUBLIC KEY-----"
  {
    assert WrapKeys(env).publicKey == PublicKeyHeader + PublicKeyFooter;
  }

  /** Running the step twice gives what running it once gives: it wraps the raw fields, never its own output. */
  lemma WrapKeysTwice(env: Env)
    ensures WrapKeys(WrapKeys(env)) == WrapKeys(env)
  {
  }
}
