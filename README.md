# v2box configuration migration, modelled in Dafny

v2box turns V2Ray (v4 JSON) and Xray configurations into sing-box options. This project
models the translators and a few related operations:

- the per-inbound and per-outbound translators of both schemas, including their TLS,
  REALITY, socket, transport and user loops;
- the Xray routing-rule translator with its domain and address prefixes;
- the Xray DNS translator;
- the two V2Ray orchestrators, which skip a failing inbound, outbound or rule with a
  warning;
- the GeoIP and GeoSite database converters;
- the `v2box` registry of migrations with its automatic type detection and version lookup.

Each source loop is a Dafny `method` proved equal to a specification function on its
inputs. Each property is then stated about that function. Decoding, the upstream loaders
and most helpers whose source is not available are parameters of the model, or `Result`
fields of the decoded records. The Xray package's own address and network helpers are the
exception: they are taken to be the V2Ray ones (see "Left out").

Modules:

- `Wrappers`, `Strings`, `Seqs` and `Net` are shared vocabulary.
- `SingBox` holds the sing-box options.
- `Legacy`, `V2RayConf` and `XrayConf` are the decoded source schemas.
- `Tables`, `Accounts`, `Certs`, `Inbounds`, `Outbounds` and `V2RayCommon` hold the parts
  the translators share.
- One module per core source file: `V2RayInbound`, `V2RayOutbound`, `XrayInbound`,
  `XrayOutbound`, `XrayRule`, `XrayDns`, `GeoResources`, `V2RayMigrate`, `LegacyMigrate`
  and `V2Box`.
- `BestEffort` is the skip-with-warning loop both orchestrators use.

## Model

| member | source | states |
|---|---|---|
| Seqs.Map | types/v2rayjson/inbound.go:124-132 | the append-in-a-loop result has one element per input, each the image of the input at that index |
| Seqs.MapAll | types/xrayjson/inbound.go:204-215 | the append loop builds exactly `Map(xs, f)` |
| Seqs.LastPicked | types/v2rayjson/outbound.go:132-142 | an overwrite loop leaves its initial value when no element is picked, otherwise the value of the last picked element |
| Seqs.UniqSpec | types/v2rayjson/geo_resources.go:100 | `common.Uniq` leaves no duplicates and keeps exactly the elements of its input |
| Seqs.UniqOfNoDuplicates | types/v2rayjson/geo_resources.go:100 | Uniq of a duplicate-free sequence is that same sequence |
| Strings.ToLower | types/xrayjson/dns.go:66 | lower-casing keeps the length and maps each character through `LowerChar`: ASCII letters, plus U+0130 to 'i' and U+212A to 'k', the two characters outside ASCII that Go lower-cases into it |
| Strings.NatToString | types/v2rayjson/v2ray.go:36 | the index text of `format.ToString` is a non-empty string of decimal digits without leading zeros, and spells exactly the number |
| Strings.NatToStringInjective | types/v2rayjson/v2ray.go:36 | two indexes have the same text iff they are the same number |
| Net.Uint32OfInt32 | types/xrayjson/outbound.go:329 | `uint32` of an `int32` is below 2^32 and congruent to the input modulo 2^32 |
| Tables.CipherTables | types/v2rayjson/outbound.go:180-189 | the outbound cipher table names exactly AES-128-GCM, AES-256-GCM and ChaCha20-Poly1305 and the inbound table (inbound.go:152-159) only AES-128-GCM and ChaCha20-Poly1305; otherwise the method is "none" |
| Tables.VMessSecurityTable | types/v2rayjson/outbound.go:237-246 | the VMess security switch gives "" exactly for an unlisted security type |
| Accounts.Instances | types/v2rayjson/outbound.go:132-136 | the account list is Ok iff every user's account instantiates, holding them in order; otherwise the error is that of the first failing user, wrapped with its type URL |
| Accounts.InstancesSnoc | types/v2rayjson/outbound.go:132-136 | an all-ok prefix extended by one instantiating user gains exactly that account |
| Accounts.FirstFailure | types/v2rayjson/outbound.go:133-136 | the first failing user after an all-ok prefix fixes the loop's error |
| Accounts.OverwriteLoop | types/v2rayjson/outbound.go:132-142 | the outbound user loop aborts with the first instantiation error, or leaves the fields of the last account of the right kind |
| Accounts.AuthenticatedLength | types/v2rayjson/outbound.go:250-252 | the VMess flag is set iff some VMess account lists AuthenticatedLength in its enabled tests |
| Accounts.VMessLoop | types/v2rayjson/outbound.go:229-254 | the VMess user loop fails as `Instances` fails, and otherwise gives the last VMess account's fields and the authenticated-length flag |
| Accounts.Collected | types/v2rayjson/inbound.go:171-184 | the inbound users number at most the source users |
| Accounts.CollectedAccepted | types/v2rayjson/inbound.go:171-184 | when every account has the right kind there is exactly one inbound user per source user, in order, each the one built from that user's email and account |
| Accounts.CollectLoop | types/v2rayjson/inbound.go:171-184 | the inbound user loop aborts with the first instantiation error, or collects the users `Collected` describes |
| Certs.OutboundCertLoop | types/v2rayjson/outbound.go:67-75 | the certificate is the last kept entry's non-empty inline certificate and the path is the last kept entry's path |
| Certs.InboundCertLoop | types/v2rayjson/inbound.go:71-83 | as the outbound loop, and the key and key path follow the same rule |
| Certs.LaterKeptEntryWins | types/v2rayjson/outbound.go:67-75 | a later kept entry overwrites the path even when it is empty; an entry with another usage changes nothing |
| Inbounds.DokodemoOf | types/v2rayjson/inbound.go:104-120 | redirect iff redirects are followed or tproxy is "redirect"; tproxy iff not that and tproxy is "tproxy"; otherwise direct with the override address and port |
| Inbounds.HttpAccountsLoop | types/v2rayjson/inbound.go:121-132 | one HTTP user per account in iteration order; TLS is attached iff enabled and there is at least one account |
| Inbounds.ServerInbound | types/v2rayjson/inbound.go:121-229 | the shared server cases, with their loops, give the inbound `ServerInboundOf` describes |
| Inbounds.VMessUsersOnePerUser | types/v2rayjson/inbound.go:162-184 | a VMess server whose accounts are all VMess yields one user per source user, with email, id and alter id |
| Inbounds.ServerInboundAttachments | types/v2rayjson/inbound.go:162-229 | TLS rides on VMess, VLESS and Trojan inbounds iff enabled; the transport iff it has a type |
| Outbounds.AddServer | types/v2rayjson/outbound.go:284-288 | the server-rule domain list grows by exactly the server's name when the address is a domain name, and stays as it is otherwise |
| Outbounds.Attach | types/v2rayjson/outbound.go:125-127 | a pointer field is set iff the condition holds, and then to the given options |
| Outbounds.FreedomOfAsWritten | types/v2rayjson/outbound.go:106-122 | as written: a direct outbound whose override, set only when the override server has an address, is the `IPOrDomain` message's own text form; the strategy follows the freedom table |
| Outbounds.FreedomOf | types/xrayjson/outbound.go:132-148 | as intended, and used by both translators: the override is the text of the address the guard tested, set only when the override server has one; the strategy follows the freedom table |
| Outbounds.FreedomVersionsAgree | types/v2rayjson/outbound.go:109-110 | the two freedom translations agree iff there is no override or the message's text is the address text; they never differ elsewhere |
| Outbounds.FreedomOverrideAsWritten | types/xrayjson/outbound.go:135-136 | as written, the override "example.com" becomes `domain:"example.com"` |
| Outbounds.ClientOutbound | types/v2rayjson/outbound.go:123-277 | the client cases, with their user loops, give the outbound and server-rule domains `ClientOutboundOf` describes |
| Outbounds.ClientOutboundOutcome | types/v2rayjson/outbound.go:128-136 | the server domain is recorded whatever happens to the users; the outbound fails exactly when an account fails to instantiate |
| Outbounds.ClientOutboundAttachments | types/v2rayjson/outbound.go:195-262 | TLS rides on HTTP, Trojan, VMess and VLESS iff enabled; the transport on Trojan, VMess and VLESS iff it has a type |
| Outbounds.HttpCredentialsFromLastAccount | types/v2rayjson/outbound.go:123-142 | the HTTP outbound takes the credentials of the last HTTP account, and none without one |
| V2RayCommon.ServerAddressUsesFirst | types/v2rayjson/common.go:17-22 | only the first endpoint counts; no endpoint gives no host, port 0 and no users |
| V2RayCommon.TcpUdp | types/v2rayjson/common.go:44-46 | the filter keeps only TCP and UDP, and every TCP and UDP entry |
| V2RayCommon.ParseNetworksCounts | types/v2rayjson/common.go:43-56 | "tcp" iff exactly one TCP and no UDP entry; "udp" symmetrically; otherwise "" |
| V2RayCommon.OnlyTcpUdpCount | types/v2rayjson/common.go:47 | a filtered list's length is its number of TCP and UDP entries |
| V2RayCommon.ParseNetworkList | types/v2rayjson/common.go:24-41 | an absent list gives "", a present one `parseNetworks` of its entries |
| V2RayCommon.TransportDispatch | types/v2rayjson/common.go:58-118 | no network descriptor means no transport; tcp with a header fails; grpc/gun and quic are recognised; an unknown name fails with its message |
| V2RayCommon.HttpHeadersFirstValue | types/v2rayjson/common.go:82-90 | the HTTP transport keeps exactly the headers that have a value, each with its first value |
| V2RayCommon.CopyFirstValues | types/v2rayjson/common.go:83-89 | the header loop, in any key order, builds the first-value map |
| V2RayCommon.CopyHeaders | types/v2rayjson/common.go:96-101 | the WebSocket header loop copies the header map exactly |
| V2RayCommon.ParseTransport | types/v2rayjson/common.go:58-118 | building the transport field by field gives `TransportOf` |
| V2RayInbound.ListenOf | types/v2rayjson/inbound.go:36-42 | the listen address comes from the listen option and the port is the first port of the range, truncated to 16 bits (0 without a range) |
| V2RayInbound.SocketOf | types/v2rayjson/inbound.go:51-59 | fast open copied when given; accepting the PROXY protocol turns on both PROXY flags; the address and port are kept |
| V2RayInbound.TlsOf | types/v2rayjson/inbound.go:65-89 | TLS is enabled iff the security is "tls"; with settings, the server name, a non-empty ALPN list and the certificate loop's certificate, key and their paths; without them nothing else is set; never REALITY |
| V2RayInbound.MigrateStream | types/v2rayjson/inbound.go:49-90 | the stream part gives `StreamOf` |
| V2RayInbound.MigrateInbound | types/v2rayjson/inbound.go:32-234 | the translator step by step gives `InboundOf` |
| V2RayInbound.InboundOutcome | types/v2rayjson/inbound.go:34-41 | the tag is copied; the listen port is the range's first port; an unknown payload fails with "unsupported inbound type"; a failing Shadowsocks account fails with "create account" (lines 142-149) |
| V2RayInbound.InboundSocket | types/v2rayjson/inbound.go:51-59 | through the whole translator, fast open follows the flag and the PROXY protocol flags follow its acceptance |
| V2RayOutbound.TlsOf | types/v2rayjson/outbound.go:60-81 | TLS is enabled iff the security is "tls"; with settings, the insecure flag, the server name, a non-empty ALPN list and the certificate loop's certificate and path; without them nothing else is set; no uTLS and no REALITY |
| V2RayOutbound.MigrateOutbound | types/v2rayjson/outbound.go:36-282 | the translator step by step gives `OutboundOf` |
| V2RayOutbound.OutboundOutcome | types/v2rayjson/outbound.go:38-105 | the tag is copied; loopback and unknown payloads fail with their messages (lines 104-105, 278-279); only client payloads add to the server-rule domains |
| V2RayOutbound.OnlyTlsEnablesTls | types/v2rayjson/outbound.go:60-63 | a security other than "tls" attaches no TLS to any outbound |
| XrayOutbound.TlsOf | types/xrayjson/outbound.go:66-107 | TLS is enabled iff the security is "tls" or "reality"; TLS settings give the insecure flag, server name, non-empty ALPN list, certificates, and uTLS iff there is a fingerprint; REALITY carries server name, public key, short id and fingerprint; otherwise the options are empty |
| XrayOutbound.WireGuardOf | types/xrayjson/outbound.go:314-331 | the first peer's endpoint and keys (none without a peer); one full-length local prefix per endpoint; MTU as `uint32` of an `int32` |
| XrayOutbound.MigrateOutbound | types/xrayjson/outbound.go:37-336 | the translator step by step gives `OutboundOf` |
| XrayOutbound.MigrateTls | types/xrayjson/outbound.go:66-107 | the security step, with its certificate loop, gives `TlsOf` |
| XrayOutbound.OutboundOutcome | types/xrayjson/outbound.go:39-131 | the tag is copied; loopback and unknown payloads fail (lines 130-131, 332-333); only client payloads add to the server-rule domains |
| XrayInbound.FastOpen | types/xrayjson/inbound.go:52-60 | a boolean is copied, a number turns fast open on unless it is -1, anything else keeps the current value |
| XrayInbound.SocketOf | types/xrayjson/inbound.go:52-66 | fast open as `FastOpen`; accepting the PROXY protocol turns on both PROXY flags; address and port kept |
| XrayInbound.RealityOf | types/xrayjson/inbound.go:94-120 | the time difference is converted from milliseconds to nanoseconds; a numeric destination is the local host on that port, a string one its host and port, anything else no handshake server |
| XrayInbound.TlsOf | types/xrayjson/inbound.go:71-120 | TLS is enabled iff the security is "tls" or "reality"; TLS settings give the server name, non-empty ALPN list, certificates and keys; REALITY options are present iff the security is "reality" with settings, and the server name is the first listed; otherwise the options are empty |
| XrayInbound.MigrateSocket | types/xrayjson/inbound.go:52-66 | the socket step gives `SocketOf` |
| XrayInbound.MigrateTls | types/xrayjson/inbound.go:71-120 | the security step, with its certificate loop, gives `TlsOf` |
| XrayInbound.MigrateStream | types/xrayjson/inbound.go:51-121 | the stream part gives `StreamOf` |
| XrayInbound.ShadowsocksUsers | types/xrayjson/inbound.go:175-197 | the Shadowsocks user loop aborts with the first account error, or gives the last Shadowsocks account's method and password |
| XrayInbound.MigrateInbound | types/xrayjson/inbound.go:33-304 | the translator step by step gives `InboundOf` |
| XrayInbound.InboundOutcome | types/xrayjson/inbound.go:35-231 | the tag is copied; an unknown payload fails (lines 300-301); multi-user servers give one user per source user and relay servers one destination per source destination |
| XrayRule.PrefixAt | types/xrayjson/rule.go:104-137 | a string with a prefix agrees with it at every position of the prefix |
| XrayRule.DomainPrefixes | types/xrayjson/rule.go:105-125 | the prefixes `parseDomain` tests are mutually exclusive |
| XrayRule.ParseDomain | types/xrayjson/rule.go:104-137 | each prefix fills its own list with the rest of the entry (`domain:` both the exact and the suffix list); a dotless name becomes an anchored regex; an entry without a known prefix becomes a keyword; `ext:` and `ext-domain:` fail; the regexp case corrected to append to the regex list |
| XrayRule.ParseDomainAsWritten | types/xrayjson/rule.go:104-137 | the regexp case as written at line 113: the regex list becomes the exact-domain list plus the pattern; every other case as `ParseDomain`, so it fails iff the entry is an external site |
| XrayRule.ParseAddress | types/xrayjson/rule.go:139-159 | `ext:` fails; a reverse `geoip:!` fails; `geoip:` fills the GeoIP list; anything else is a CIDR; a source address fills the source lists |
| XrayRule.Steps | types/xrayjson/rule.go:49-72 | a failing step stops the fold with its error, which then stays the result |
| XrayRule.StepAll | types/xrayjson/rule.go:49-60 | a domain or address loop that stops at the first error gives `Steps` |
| XrayRule.DomainListFails | types/xrayjson/rule.go:49-60 | with either domain step, a domain list fails iff some entry is an external site, and then with that error |
| XrayRule.RegexpsAccumulate | types/xrayjson/rule.go:111-114 | with the corrected case, every regexp entry's pattern ends up in the regex list, in order |
| XrayRule.RegexpTypoDropsPattern | types/xrayjson/rule.go:111-114 | for ["regexp:a", "regexp:b"] the code as written keeps only "b" as a regex |
| XrayRule.RegexpTypoCopiesDomains | types/xrayjson/rule.go:111-114 | for ["full:a", "regexp:b"] the code as written puts the unrelated plain domains into the regex list |
| XrayRule.PortsPartition | types/xrayjson/rule.go:73-90 | every port span goes to exactly one of the single-port and the port-range lists |
| XrayRule.SplitPorts | types/xrayjson/rule.go:73-90 | the port loop gives the single ports and the "from:to" ranges |
| XrayRule.StepsAppend | types/xrayjson/rule.go:49-72 | running two lists in turn equals running their concatenation |
| XrayRule.MigrateMatches | types/xrayjson/rule.go:48-72 | the two domain loops and the two address loops, with the domain step as written or corrected, give `MatchesOf` |
| XrayRule.MigrateRule | types/xrayjson/rule.go:30-102 | the translator step by step gives `RuleOf`: with `asWritten` the source's own regexp branch, otherwise the corrected one; balancer, rule type and attributes errors included |
| XrayRule.StepsKeepOutbound | types/xrayjson/rule.go:48-72 | no domain or address step changes the outbound tag |
| XrayRule.RuleOutcome | types/xrayjson/rule.go:30-102 | for both domain steps: a balancer tag fails, then a non-field rule type; a domain or address error wins over the attributes error, an external site entry gives its error, and attributes on a rule whose loops succeed give "attributes rule is not supported"; a successful rule had none of these, and copies the outbound tag, users, inbound tags, protocols and network |
| XrayRule.StepsAgreeWithoutRegexp | types/xrayjson/rule.go:104-137 | on a domain list without `regexp:` entries the step as written and the corrected one give the same result |
| XrayRule.RuleVersionsAgree | types/xrayjson/rule.go:30-102 | a rule without `regexp:` domain entries translates the same as written and corrected |
| XrayRule.RuleVersionsDiffer | types/xrayjson/rule.go:49-60 | for the domains ["full:a", "regexp:b"] the translator as written yields the regexes ["a", "b"], the corrected one ["b"] |
| XrayDns.ParseStrategy | types/xrayjson/dns.go:65-73 | IPv4-only iff the lower-cased strategy is one of the eight IPv4 spellings, IPv6-only iff one of the eight IPv6 spellings, otherwise as-is |
| XrayDns.ToLowerIdempotent | types/xrayjson/dns.go:66 | lower-casing twice is lower-casing once |
| XrayDns.StrategyIgnoresCase | types/xrayjson/dns.go:65-73 | the strategy does not depend on the case of its name, and the empty name is as-is |
| XrayDns.NonAsciiSpelling | types/xrayjson/dns.go:66-68 | "USE" + U+0130 + "PV4" lower-cases to "useipv4" and so selects IPv4 only |
| XrayDns.MigrateDns | types/xrayjson/dns.go:14-63 | two fixed servers, the parsed strategy, the China rule iff some server lists a domain ending in "cn", a "direct" outbound appended iff none exists, everything else unchanged |
| XrayDns.MigrateDnsIdempotent | types/xrayjson/dns.go:54-62 | migrating the same DNS configuration twice gives the same options as once |
| GeoResources.ItemsOf | types/v2rayjson/geo_resources.go:71-98 | plain becomes keyword, regex regex, full exact; a root domain becomes the suffix "." + name, preceded by an exact domain iff the name contains a dot; other types nothing |
| GeoResources.ClassifiedItems | types/v2rayjson/geo_resources.go:65-99 | the classified items of a category are exactly the items of its domains |
| GeoResources.AddKeysSpec | types/v2rayjson/geo_resources.go:66-70 | recording a domain under its attributes adds exactly those keys and that domain and loses nothing |
| GeoResources.AttrsSpec | types/v2rayjson/geo_resources.go:65-70 | a domain is listed under an attribute key iff it carries that attribute |
| GeoResources.ScanDomains | types/v2rayjson/geo_resources.go:65-99 | the domain loop gives the classified items and the attribute map |
| GeoResources.ClassifyAll | types/v2rayjson/geo_resources.go:103-130 | the loop over an attribute's domains gives their classified items |
| GeoResources.WriteCategories | types/v2rayjson/geo_resources.go:101-134 | the attribute loop adds exactly the attribute categories of the entry to the map |
| GeoResources.UpdateThenMerge | types/v2rayjson/geo_resources.go:100-134 | writing a base category then merging the attribute categories equals merging both |
| GeoResources.MigrateGeoSite | types/v2rayjson/geo_resources.go:54-137 | a decode error is returned; otherwise the loop builds the category map `GeoSiteOf` describes |
| GeoResources.SiteMapNoDuplicates | types/v2rayjson/geo_resources.go:100 | every category of the converted database lists each item at most once |
| GeoResources.LastEntryWins | types/v2rayjson/geo_resources.go:61-100 | for a repeated country code, the later entry's base category is the one written |
| GeoResources.AttributeCategoryHolds | types/v2rayjson/geo_resources.go:101-134 | a domain with attribute k puts all its items into the code@k category |
| GeoResources.AttributeCategoryOnly | types/v2rayjson/geo_resources.go:101-134 | every item of the code@k category comes from a domain with attribute k |
| GeoResources.To4 | types/v2rayjson/geo_resources.go:37-39 | a successful IPv4 conversion has four bytes |
| GeoResources.Normalised | types/v2rayjson/geo_resources.go:37-44 | an IPv4-mapped address is stored as four bytes; the mask has the prefix length over the address width |
| GeoResources.TaggedSpec | types/v2rayjson/geo_resources.go:36-49 | one insertion per CIDR of an entry, in order, tagged with its country code |
| GeoResources.FirstInsertErrorSpec | types/v2rayjson/geo_resources.go:45-48 | no error iff every insertion succeeds; otherwise the error of the first failing insertion |
| GeoResources.FirstInsertErrorAppend | types/v2rayjson/geo_resources.go:35-50 | an insertion error in the earlier part hides everything after it |
| GeoResources.InsertsPrefix | types/v2rayjson/geo_resources.go:35-50 | the insertions of a prefix of the entries come first, in order |
| GeoResources.InsertEntry | types/v2rayjson/geo_resources.go:36-49 | the CIDR loop of one entry stops at the first insertion error |
| GeoResources.TaggedAppend | types/v2rayjson/geo_resources.go:36-49 | tagging a concatenation of CIDR lists is concatenating their tagged lists |
| GeoResources.MigrateGeoIP | types/v2rayjson/geo_resources.go:18-52 | a decode error is returned; otherwise the first insertion error, or the full insertion list, in order |
| GeoResources.InsertOrder | types/v2rayjson/geo_resources.go:35-50 | every CIDR of entry k is inserted after all CIDRs of the earlier entries, tagged with entry k's code |
| BestEffort.TagOrIndex | types/v2rayjson/v2ray.go:34-37 | a warning names the tag, or the index when the tag is empty |
| BestEffort.SkipCounts | types/v2rayjson/v2ray.go:31-42 | every item is either kept or warned about |
| BestEffort.SkipMembers | types/v2rayjson/v2ray.go:31-42 | every successful item is kept and every failure produces its warning |
| BestEffort.SkipOrder | types/v2rayjson/v2ray.go:31-42 | processing is in order: a prefix's outcome is a prefix of the whole outcome |
| BestEffort.SkipAllOk | types/v2rayjson/v2ray.go:31-42 | with no failures there are no warnings and every result is kept, in order |
| BestEffort.Results | types/v2rayjson/v2ray.go:31-32 | one tagged result per item, in order |
| BestEffort.SkipAll | types/v2rayjson/v2ray.go:31-42 | the skipping loop gives `Skip` of the translated items |
| BestEffort.RouteAfter | types/v2rayjson/v2ray.go:65-77 | the route is created only when some rule is kept, and the kept rules are appended to the existing ones |
| BestEffort.AppendRules | types/v2rayjson/v2ray.go:65-77 | the rule loop creates the route lazily and gives the kept rules and their warnings |
| V2RayMigrate.OutboundResults | types/v2rayjson/v2ray.go:49-60 | one result per outbound, tagged with the outbound's tag, threading the server-rule domains |
| V2RayMigrate.CollectedDomainsGrow | types/v2rayjson/v2ray.go:49-60 | the server-rule domains only grow, by at most one per outbound |
| V2RayMigrate.WithServerRule | types/v2rayjson/v2ray.go:62-64 | the server rule is appended to the DNS rules iff it holds a domain, and nothing else changes |
| V2RayMigrate.MigrateInbounds | types/v2rayjson/v2ray.go:31-42 | the inbound loop gives `Skip` of the translated inbounds |
| V2RayMigrate.MigrateOutbounds | types/v2rayjson/v2ray.go:49-60 | the outbound loop gives `Skip` of the translated outbounds, and the collected domains |
| V2RayMigrate.Migrate | types/v2rayjson/v2ray.go:23-79 | the migration step by step gives `MigrateOf` |
| V2RayMigrate.MigrateOutcome | types/v2rayjson/v2ray.go:23-79 | a decode error is returned with no warnings; after decoding the migration never fails; the warnings list the inbounds, outbounds and rules in that order; the server rule is present iff some domain was collected |
| LegacyMigrate.LogGuardAsWritten | v2rayjson/v2ray.go:22 | the guard as written dereferences nil exactly when the log configuration is absent, and otherwise evaluates to a boolean |
| LegacyMigrate.LogGuardDereferencesNil | v2rayjson/v2ray.go:22 | with no log configuration the guard as written dereferences nil, while the corrected guard is false |
| LegacyMigrate.LogGuardsAgree | v2rayjson/v2ray.go:22 | with a log configuration present, both guards agree |
| LegacyMigrate.LogOf | v2rayjson/v2ray.go:22-26 | log options are written iff the configuration is present and names an error log or a level, and then copy both |
| LegacyMigrate.Migrate | v2rayjson/v2ray.go:14-65 | the migration step by step, with the corrected guard, gives `MigrateOf` |
| LegacyMigrate.MigrateOutcome | v2rayjson/v2ray.go:14-65 | a decode error is returned with no warnings; otherwise the migration succeeds with the log, the kept inbounds, outbounds and rules, and their warnings in order |
| V2Box.Registry.constructor | v2box.go:11-14 | the registry starts with no migrations and no versions |
| V2Box.Registry.Register | v2box.go:16-25 | registering maps the type name to the migration and to the version text, replacing earlier ones |
| V2Box.Registry.Migrate | v2box.go:27-43 | automatic mode succeeds iff some registered migration succeeds, and then returns one of their results; a named type uses its migration or fails with "unknown configuration type" |
| V2Box.Registry.Version | v2box.go:45-60 | automatic mode prefers the v2ray version, then any registered version, then "unknown"; a named type gives its version or "unknown" |
| V2Box.RegisterThenLookup | v2box.go:16-43 | after registering a named type, migrating with it runs that migration and its version is the registered text |

## Left out

- Decoding JSON, protobuf and the GeoIP/GeoSite databases is not modelled. Each decoder's outcome is a `Result` input.
- Xray's own `parseServerAddress`, `parseNetworks` and `parseNetworkList`, called in `types/xrayjson/outbound.go`, `inbound.go` and `rule.go:91`, are not part of this model. `XrayOutbound`, `XrayInbound` and `XrayRule` assume they behave as the V2Ray versions at `types/v2rayjson/common.go:17-56` and use `V2RayCommon.ParseServerAddress`, `ParseNetworks` and `ParseNetworkList`.
- Strings.ToLower: Go's `strings.ToLower` lower-cases every Unicode letter. The model maps only the ASCII letters, U+0130 and U+212A, which covers every character whose lower case is ASCII. `XrayDns.ParseStrategy` is therefore exact. The names of `GeoResources.EntryMap`'s categories keep any other upper-case non-ASCII letter unchanged.
- The upstream loaders and builders are not modelled: `LoadWithID`, `Build`, `serial.GetInstanceOf`, `CreateAccount`, Xray's `parseTransport` and its port parsing. Their outcomes are `Result` fields of the decoded records.
- The V2Ray `migrateDNS` and `migrateRule` of `types/v2rayjson` are not part of this model. They are parameters of `V2RayMigrate.Migrate`. `SetsDns` only requires that the DNS options are always set.
- The root `v2rayjson` package's `migrateInbound`, `migrateOutbound` and `migrateRule` are not part of this model. They are parameters of `LegacyMigrate.Migrate`.
- Logging is not modelled: each `logger.Warn` call becomes an entry in the returned warnings list.
- The GeoIP writer's trie and `WriteTo`, and `geosite.Write`, are not modelled. Insertion is a parameter `insertError`, and the GeoSite result is the category map handed to the writer.
- `GeoResources.MigrateGeoSite`: categories are keyed by a datatype (base code, or code with attribute) rather than the string "code@attribute". A base code that itself contains "@" and collides with an attribute category is therefore not merged as the Go map would merge it.
- Go map iteration order is not modelled. HTTP and SOCKS account maps are sequences in runtime order, header maps are iterated by arbitrary choice, and automatic type detection picks any registered type.
- Dialer options (routing mark, bind interface, dial-side fast open) are not modelled, because the translators never attach them to an outbound.
- The nil/empty slice distinction of sing-box options is not modelled (an absent list is `[]`).
- `XrayInbound.RealityOf`: the `time.Duration` multiplication is over unbounded integers, so its 64-bit overflow is not modelled.
- `XrayInbound.FastOpen`: the Xray fast-open number is a real value rather than a `float64`, and the numeric REALITY destination's `float64` conversion to a port is not modelled.
- `types/xrayjson/dns.go:15-26` computes a default server address that is never used (dead code); the model omits it.
- `XrayDns.MigrateDns`: the update through `*option.Options` is modelled as options in, options out.
- Outbounds.FreedomOf: both translators are modelled with the intended override address, the address text. The source writes the `IPOrDomain` message's own `String()` (types/v2rayjson/outbound.go:110, types/xrayjson/outbound.go:136), which `Outbounds.FreedomOfAsWritten` models. Protobuf-go's generated code formats that text, so it is an input field, `messageText`, and is not derived from the address.
- `XrayRule.ParseDomainAsWritten`: the slice aliasing of `append(rule.Domain, …)` at rule.go:113 is not modelled, and the regex list is a fresh copy.
- The `init` functions that register the migrations are not modelled; the registry's constructor and `Register` stand for them.
- The command-line programs under `cmd/` and `command.go` are not modelled.

## Findings

| source | as written | input that shows it | evidently intended | confidence | as-written member | corrected member |
|---|---|---|---|---|---|---|
| types/xrayjson/rule.go:113 | a `regexp:` entry sets the regex list to the plain domain list plus the pattern | domain list ["regexp:a", "regexp:b"] gives the regex list ["b"], and ["full:a", "regexp:b"] gives ["a", "b"] | append the pattern to the regex list | not executed | XrayRule.ParseDomainAsWritten, XrayRule.RegexpTypoDropsPattern, XrayRule.RuleVersionsDiffer | XrayRule.ParseDomain, XrayRule.RegexpsAccumulate |
| v2rayjson/v2ray.go:22 | `LogConfig != nil && ErrorLog != "" \|\| LogLevel != ""` reads `LogLevel` even when `LogConfig` is nil | a configuration with no "log" section dereferences nil | test `LogConfig != nil` before both fields | not executed | LegacyMigrate.LogGuardAsWritten, LegacyMigrate.LogGuardDereferencesNil | LegacyMigrate.LogGuard, LegacyMigrate.LogOf |
| types/v2rayjson/outbound.go:110 | the freedom override address is `server.Address.String()`, the protobuf text form of the `IPOrDomain` message; the guard one line above, and every other use in both translators, goes through `AsAddress()` | the override domain "example.com" gives the override address `domain:"example.com"`; the same line is types/xrayjson/outbound.go:136 | `server.Address.AsAddress().String()`, the address text | not executed | Outbounds.FreedomOfAsWritten, Outbounds.FreedomOverrideAsWritten | Outbounds.FreedomOf, Outbounds.FreedomVersionsAgree |
