/** The fixed enumeration tables the translators of both schemas share. */
module Tables {
  import opened Legacy
  import opened SingBox

  /** Outbound Shadowsocks cipher: the three AEAD ciphers by name, anything else "none". */
  function OutboundCipher(c: CipherType): string {
    match c
    case CipherAes128Gcm => "aes-128-gcm"
    case CipherAes256Gcm => "aes-256-gcm"
    case CipherChacha20Poly1305 => "chacha20-ietf-poly1305"
    case CipherOther(_) => "none"
  }

  /** Inbound Shadowsocks cipher: only AES-128-GCM and ChaCha20-Poly1305 are named. */
  function InboundCipher(c: CipherType): string {
    match c
    case CipherAes128Gcm => "aes-128-gcm"
    case CipherChacha20Poly1305 => "chacha20-ietf-poly1305"
    case _ => "none"
  }

  /** VMess security: the switch has no default arm, so an unlisted value gives "". */
  function VMessSecurity(s: SecurityType): string {
    match s
    case SecurityAes128Gcm => "aes-128-gcm"
    case SecurityChacha20Poly1305 => "chacha20-poly1305"
    case SecurityNone => "none"
    case SecurityZero => "zero"
    case SecurityOther(_) => ""
  }

  /** SOCKS client version: SOCKS4 and SOCKS4A are written, SOCKS5 leaves the field unset. */
  function SocksVersionString(v: SocksVersion): string {
    match v
    case Socks5 => ""
    case Socks4 => "4"
    case Socks4a => "4a"
  }

  /** Freedom domain strategy: AS_IS and unlisted values leave the strategy unset. */
  function FreedomDomainStrategy(s: FreedomStrategy): DomainStrategy {
    match s
    case FreedomAsIs => AsIs
    case FreedomUseIp => PreferIPv4
    case FreedomUseIp4 => UseIPv4
    case FreedomUseIp6 => UseIPv6
    case FreedomOther(_) => AsIs
  }

  /** The outbound table names exactly three ciphers and defaults to "none"; the inbound
      table differs from it only on AES-256-GCM. */
  lemma CipherTables(c: CipherType)
    ensures OutboundCipher(c) != "none" <==> c in {CipherAes128Gcm, CipherAes256Gcm, CipherChacha20Poly1305}
    ensures InboundCipher(c) != "none" <==> c in {CipherAes128Gcm, CipherChacha20Poly1305}
    ensures c != CipherAes256Gcm ==> InboundCipher(c) == OutboundCipher(c)
  {
  }

  /** The VMess table is injective on the four listed values and gives "" elsewhere. */
  lemma VMessSecurityTable(s: SecurityType)
    ensures VMessSecurity(s) == "" <==> s.SecurityOther?
  {
  }
}
