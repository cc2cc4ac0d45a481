/** The TLS certificate loops of the four translators. A certificate entry whose usage is
    neither empty nor "encipherment" is skipped; every other entry overwrites the file paths,
    and overwrites the inline certificate (and key) only when it carries inline lines. */
module Certs {
  import opened Wrappers
  import opened Strings
  import opened Seqs
  import opened Legacy

  /** An entry the loops take into account. */
  predicate Kept(c: CertConfig) {
    c.usage == "" || c.usage == "encipherment"
  }

  /** The inline certificate a kept entry with certificate lines writes. */
  function InlineCert(c: CertConfig): Option<string> {
    if Kept(c) && |c.certStr| > 0 then Some(Join(c.certStr, "\n")) else None
  }

  /** The inline key a kept entry with key lines writes (inbound loops only). */
  function InlineKey(c: CertConfig): Option<string> {
    if Kept(c) && |c.keyStr| > 0 then Some(Join(c.keyStr, "\n")) else None
  }

  /** The certificate path every kept entry writes, empty or not. */
  function CertPath(c: CertConfig): Option<string> {
    if Kept(c) then Some(c.certFile) else None
  }

  /** The key path every kept entry writes (inbound loops only). */
  function KeyPath(c: CertConfig): Option<string> {
    if Kept(c) then Some(c.keyFile) else None
  }

  /** The outbound certificate loop, starting from unset fields. The certificate is the
      joined lines of the last kept entry that has lines, the path that of the last kept
      entry; with no kept entry both stay empty. */
  method OutboundCertLoop(certs: seq<CertConfig>) returns (certificate: string, certificatePath: string)
    ensures certificate == LastPicked(certs, InlineCert, "")
    ensures certificatePath == LastPicked(certs, CertPath, "")
  {
    certificate, certificatePath := "", "";
    var i := 0;
    while i < |certs|
      invariant 0 <= i <= |certs|
      invariant certificate == LastPicked(certs[..i], InlineCert, "")
      invariant certificatePath == LastPicked(certs[..i], CertPath, "")
    {
      var c := certs[i];
      assert certs[..i + 1][..i] == certs[..i];
      if c.usage != "" && c.usage != "encipherment" {
        i := i + 1;
        continue;
      }
      if |c.certStr| > 0 {
        certificate := Join(c.certStr, "\n");
      }
      certificatePath := c.certFile;
      i := i + 1;
    }
    assert certs[..i] == certs;
  }

  /** The fields the inbound certificate loop fills. */
  datatype InboundCertFields = InboundCertFields(certificate: string, key: string, certificatePath: string, keyPath: string)

  /** The inbound certificate loop: as the outbound one, with the key and the key path
      following the same rule as the certificate and its path. */
  method InboundCertLoop(certs: seq<CertConfig>) returns (f: InboundCertFields)
    ensures f.certificate == LastPicked(certs, InlineCert, "")
    ensures f.key == LastPicked(certs, InlineKey, "")
    ensures f.certificatePath == LastPicked(certs, CertPath, "")
    ensures f.keyPath == LastPicked(certs, KeyPath, "")
  {
    f := InboundCertFields("", "", "", "");
    var i := 0;
    while i < |certs|
      invariant 0 <= i <= |certs|
      invariant f.certificate == LastPicked(certs[..i], InlineCert, "")
      invariant f.key == LastPicked(certs[..i], InlineKey, "")
      invariant f.certificatePath == LastPicked(certs[..i], CertPath, "")
      invariant f.keyPath == LastPicked(certs[..i], KeyPath, "")
    {
      var c := certs[i];
      assert certs[..i + 1][..i] == certs[..i];
      if c.usage != "" && c.usage != "encipherment" {
        i := i + 1;
        continue;
      }
      if |c.certStr| > 0 {
        f := f.(certificate := Join(c.certStr, "\n"));
      }
      if |c.keyStr| > 0 {
        f := f.(key := Join(c.keyStr, "\n"));
      }
      f := f.(certificatePath := c.certFile, keyPath := c.keyFile);
      i := i + 1;
    }
    assert certs[..i] == certs;
  }

  /** A later kept entry always wins the path, even when its path is empty; an entry with a
      foreign usage never changes anything. */
  lemma {:induction false} LaterKeptEntryWins(certs: seq<CertConfig>, c: CertConfig)
    ensures Kept(c) ==> LastPicked(certs + [c], CertPath, "") == c.certFile
    ensures !Kept(c) ==> LastPicked(certs + [c], CertPath, "") == LastPicked(certs, CertPath, "")
    ensures !Kept(c) ==> LastPicked(certs + [c], InlineCert, "") == LastPicked(certs, InlineCert, "")
  {
    assert (certs + [c])[..|certs|] == certs;
  }
}
