# FastPKI protocol core, verified

A Dafny model of the parts of FastPKI whose correctness spans many requests or every byte of an
untrusted input: the ACME server's order, authorization, challenge, account and device-ticket
machine (RFC 8555), the CMP server's transactions and confirmations (RFC 4210), the audit hash
chain, the CBOR reader (RFC 8949), the DNS messages and the CAA decision (RFC 1035, RFC 8659), and
the http-01 redirect walk (section 8.3 of RFC 8555).

The source updates rows and fields in place, so the model does too. `AcmeServer.Server`,
`CmpServer.Server` and `Cbor.Reader` are classes whose methods follow the handlers statement by
statement, with the loops the source has. Each method is proved equal to a function of the old
state, and the theorems are about those functions: over every input for the parsers, over every
possible sequence of requests and background steps for the servers. The ACME verifier is two
steps, because the source takes a snapshot of its rows, goes to the network, and writes the
snapshot back while other requests run. Where an ACME handler looks a row up in the store, the
method does so too, and the event it is proved equal to carries the answer it found. The RA key of
the CMP server is published between threads; it is modelled as an interleaved state machine with its
mutex.

Beside the functions the methods are proved equal to stand rules that say the same from the other
side: for every message, event or input, under which conditions something is granted, accepted or
changed, and what exactly it then becomes. `CmpRules` does so for each CMP message; `AcmeRules`,
`AcmeOrderRules`, `AcmeAuthzRules`, `AcmeTicketRules` and `AcmeCertRules` for every row of every ACME
table, with all the ways it can change; `Http01Urls` and `Http01Exact` for locations and whole
fetches; `DnsRules` and `CaaRules` for replies and CAA. Their conditions are written out over the
request and the stored rows, apart from the handlers. What they share with them is the text of keys
and names, which has its own exact rules, and the kind of fault a bad location is reported with.

What the code decides by calling out (signatures, OpenSSL's CMP engine, RBAC, the resolver and the
HTTP exchange, SHA-256, drawn ids, the clock) enters as a value of the event or a function
parameter, and nothing is assumed about it beyond the `Legal` predicate of `Acme`: drawn ids and
nonces are new, a stored lookup answers with a row that matches, tickets and registered serials
name a CA and an owner. A key is named by its thumbprint. The ACME theorems start from an empty
store; the invariants they rest on are kept by every single step.

Seven properties one might expect do not hold of the code. Each is kept as a result, with the exact
condition:

- Printing an accepted http-01 URL and parsing it again does not always give it back
  (`Http01.PrintNotAlwaysInverted`); it does exactly when the host has no `]` beside a `:` and no
  leading `[` without one (`Http01.PrintInvertedExactly`).
- An order on DNS names can yield two certificates, because a verifier under way when the order was
  served can make it ready again (`AcmeReissue.NamesServedTwice`). `AcmeCounts.ReopenedExactly` says
  for every step whether it does, and `AcmeCounts.ServedExactly` for every run that the certificates
  of an order are one for being valid and one for each time that happened.
- A wildcard in a certificate need not have been proved on its base name: a pre-authorization for
  `*.*.a` is proved under `*.a` and reused for an order of `*.a` (`AcmeWild.WildcardNotByBase`). Some
  authorization is stored under a wildcard if and only if such a pre-authorization was accepted
  (`AcmeAuthzs.RunPlainExactly`), and without one the base name was proved (`AcmeAuthzs.WildcardsByBase`).
- A deactivated authorization can become valid again (`AcmeReissue.DeactivatedReturns`);
  `AcmeAuthzs.RevivedExactly` says for every step whether it does.
- Deactivating an authorization does not always stop its order (`AcmeReissue.DeactivatedServed`),
  although a comment of the handler says that it does (src/acme/main.cpp:1237-1238). Finalize reads no
  authorization, so an order that is ready already is served alike
  (`AcmeBlocked.FinalizeIgnoresAuthzs`); an order that is not yields nothing for as long as the
  authorization is not revived (`AcmeBlocked.BlockedStaysPending`).
- A certificate revoked over CMP can become valid again through the certConf it still awaits
  (`CmpRuns.RevokedCanReturn`); `CmpRuns.RevokedReturnsExactly` says for every message whether it does.
- An audit append does not always keep the log intact: exactly when the drawn number is not the
  next one, it reads as a gap (`Audit.AppendKeepsIntact`).

The other modules: `Text` holds decimal and hexadecimal text; `Audit`, `Cbor`, `Dns`, `DnsAnswers`,
`Names`, `Caa`, `Http01` and `Http01Walk` one component each; `Certs` the revocation rules both
servers share; `Cmp` what a CMP message does, `CmpServer` the server object, `CmpRuns` the theorems
over runs, `RaKey` the key publication; `Acme` what an ACME event does, `AcmeServer` the server
object, `AcmeFrames` which rows a handler touches, `AcmeLinks` the invariants that tie rows
together, `AcmeKeys`, `AcmeProofs`, `AcmeAuthzs`, `AcmeRows`, `AcmeDevices`, `AcmeCounts` and
`AcmeBlocked` the theorems over runs, and `AcmeReissue` and `AcmeWild` runs written out.

## Model

| member | source | states |
|---|---|---|
| Audit.CanonicalReadBack | src/lib/audit.cpp:17-34 | A length-prefix reader recovers the eight fields of any event from the hashed bytes, in the contracted order, and leaves exactly the previous hash |
| Audit.HashInputInjective | src/lib/audit.cpp:17-61 | Equal hash inputs mean equal events and equal previous hashes, whatever the field contents |
| Audit.VerifyAuditChain | src/lib/audit.cpp:63-97 | Accepts exactly the intact chains and reports their head; a refusal names the first bad row and why it is bad |
| Audit.TruncationStaysIntact | src/lib/audit.cpp:63-97 | Dropping the newest rows cannot be seen from the chain alone |
| Audit.AppendKeepsIntact | src/lib/db_postgres.cpp:692-748 | Appending to an intact log keeps it intact if and only if the drawn number is the next one |
| Audit.TamperEvidence | src/lib/audit.cpp:59-97 | Two intact logs with the same head, of any lengths, record the same events, or the proof returns two rows whose different inputs hash alike or a row hashing to the genesis constant |
| Audit.CheckpointInjective | src/lib/audit.cpp:121-124 | A checkpoint text determines the number and the hash it anchors |
| Audit.CheckpointReadBack | src/lib/audit.cpp:121-124 | The number stands before the first colon of a checkpoint, the hash is all that follows |
| Audit.CheckpointPinsLog | src/lib/audit.cpp:63-124 | Two intact logs under one checkpoint are equal row for row and number for number, or exhibit a collision |
| Audit.ToHex | src/lib/audit.cpp:100-105 | Two lower-case digits per byte, in order |
| Audit.FromHex | src/lib/audit.cpp:106-120 | Whole pairs of either case are decoded, an odd last character is dropped, anything else gives the empty string |
| Audit.HexRoundTrip | src/lib/audit.cpp:100-120 | Decoding the encoding of any bytes gives those bytes and no others |
| Text.HexDigitsExactly | src/lib/audit.cpp:100-120 | Which sixteen digits are written, and that the capitals are read as well and nothing else |
| Cbor.CallsBounded | include/pki/cbor.hpp:60-79 | Skipping makes at most one call more than the bytes it consumes, and no more than those on success |
| Cbor.HeadRoundTrip | include/pki/cbor.hpp:34-51 | Every head of every width reads back, longer than needed included |
| Cbor.HeadSound | include/pki/cbor.hpp:34-51 | Every accepted head is the encoding of what was read |
| Cbor.SkipsItem | include/pki/cbor.hpp:60-79 | Any well-formed item is skipped to its last byte whatever follows it, and refused only for depth; the count guards never refuse one |
| Cbor.SkippedIsItem | include/pki/cbor.hpp:60-79 | Whatever is skipped is the encoding of one well-formed item |
| Cbor.SkipExact | include/pki/cbor.hpp:60-79 | From any depth, skipping succeeds if and only if the input begins with a well-formed item within the depth limit, and stops right after it |
| Cbor.IntegerRoundTrip | include/pki/cbor.hpp:91-98 | Every int64, both extremes included, reads back from every head wide enough |
| Cbor.IntegerSound | include/pki/cbor.hpp:91-98 | Every accepted integer is in int64 range and was so encoded |
| Cbor.StringRoundTrip | include/pki/cbor.hpp:80-90 | Text and byte strings read back with the exact remainder |
| Cbor.StringSound | include/pki/cbor.hpp:80-90 | Every accepted string is the encoding of its text, head included |
| Cbor.CountRoundTrip | include/pki/cbor.hpp:99-110 | The count of any well-formed array or map is accepted and leaves its items next |
| Cbor.CountSound | include/pki/cbor.hpp:99-110 | Every accepted count was so encoded, and as many items as it says still fit in the input |
| Cbor.KeyReadsItem | include/pki/cbor.hpp:111-118 | A key of any type is consumed whole; only a text key yields its text |
| Cbor.KeySound | include/pki/cbor.hpp:111-118 | Whatever passes for a key is one well-formed item, and yields its text or nothing |
| Cbor.HeadFaults | include/pki/cbor.hpp:34-51 | Which fault refuses a head: by its low five bits first, then by missing bytes |
| Cbor.TypedFaults | include/pki/cbor.hpp:80-110 | A typed read faults as its head does, then on the major type, then on the argument, with nothing but the head consumed |
| Cbor.Reader.constructor | include/pki/cbor.hpp:21-24 | A reader starts at the first byte of its input |
| Cbor.Reader.NextByte | include/pki/cbor.hpp:29-32 | The next byte, or a fault at the end with nothing consumed |
| Cbor.Reader.NextHead | include/pki/cbor.hpp:34-51 | The byte loop equals `Cbor.ReadHead`, for which every width round-trips, and consumes what that says on faults too |
| Cbor.Reader.TakeBytes | include/pki/cbor.hpp:53-58 | Takes the next bytes, or none when they run past the end |
| Cbor.Reader.SkipItem | include/pki/cbor.hpp:60-79 | The recursive, looping skip equals `Cbor.Skip`, which accepts exactly the grammar |
| Cbor.Reader.SkipItems | include/pki/cbor.hpp:67-74 | The array and map loops equal `Cbor.SkipMany` over that many items |
| Cbor.Reader.NextString | include/pki/cbor.hpp:80-90 | Equals `Cbor.ReadString`, which inverts the encoding of text and byte strings |
| Cbor.Reader.NextInteger | include/pki/cbor.hpp:91-98 | Equals `Cbor.ReadInteger`, which inverts the encoding of every int64 |
| Cbor.Reader.NextCount | include/pki/cbor.hpp:99-110 | Equals `Cbor.ReadCount`, which accepts the count of every well-formed container |
| Cbor.Reader.NextKey | include/pki/cbor.hpp:111-118 | Equals `Cbor.ReadKey`, which consumes a key of any type whole |
| Dns.EncodeName | src/acme/main.cpp:1288-1300 | Appends the labels of the name up to the first that is not 1 to 63 bytes, then the root |
| Dns.NameEncodedExactly | src/acme/main.cpp:1288-1300 | The question is about the whole name if and only if every label is 1 to 63 bytes |
| Dns.LabelsExactly | src/acme/main.cpp:1288-1300 | A name splits at its dots into labels without any, in exactly one way |
| Dns.SkipName | src/acme/main.cpp:1303-1311 | Stops exactly behind the owner name, from any position, or fails |
| Dns.OwnerSkipped | src/acme/main.cpp:1303-1311 | Every plain or compressed owner name is skipped to its last byte |
| Dns.SkippedIsOwner | src/acme/main.cpp:1303-1311 | Whatever is skipped is such an owner name |
| Dns.ReplyIsOurs | src/acme/main.cpp:1408-1422 | Accepts exactly replies with our id, the response bit, one question, and our question up to ASCII case |
| Dns.AcceptedAnswersQuestion | src/acme/main.cpp:1408-1422 | An accepted reply has the same label boundaries, type and class and the same labels up to case, and the name skipper stops exactly behind its name |
| DnsRules.OursExactly | src/acme/main.cpp:1408-1422 | A reply is ours if and only if it has our id, the response bit and one question, and then our labels up to ASCII case, our type and class IN |
| DnsRules.QueryRule | src/acme/main.cpp:1426-1450 | A query asks for recursion with one question and no records, and echoed as a response it is accepted as its own reply |
| DnsAnswers.AnswersFollowQuestion | src/acme/main.cpp:1452-1455 | Skipping the one question of an accepted reply ends where the compared bytes end |
| DnsAnswers.RecordsRead | src/acme/main.cpp:1545-1566 | Any list of encoded records, whatever follows, reads back in order |
| DnsAnswers.RecordsSound | src/acme/main.cpp:1545-1566 | Whatever reads as n records is the encoding of n records |
| DnsAnswers.TxtRead | src/acme/main.cpp:1456-1475 | The character-strings of a TXT record are concatenated |
| DnsAnswers.CaaRead | src/acme/main.cpp:1552-1565 | CAA data is understood exactly when it is flags, a counted tag and a value; then the tag is lowercased |
| DnsAnswers.CaaRoundTrip | src/acme/main.cpp:1499-1569 | Any records behind any echo of the question yield exactly the understood CAA records in order; error codes and truncation fail, NXDOMAIN is empty |
| DnsAnswers.TxtRoundTrip | src/acme/main.cpp:1426-1476 | Likewise exactly the TXT texts, other types skipped |
| DnsAnswers.CaaSound | src/acme/main.cpp:1499-1569 | A CAA answer other than failure or NXDOMAIN comes from our question followed by that many well-formed records |
| DnsRules.CaaLookedUpExactly | src/acme/main.cpp:1499-1569 | What every datagram comes to: foreign, failing and truncated ones are no answer, NXDOMAIN is none, any other is an answer exactly when it reads to its last record, and then which |
| DnsRules.TxtLookedUpExactly | src/acme/main.cpp:1426-1476 | What every datagram comes to for TXT: none when foreign, else the texts of the records before the first that cannot be read |
| DnsRules.CaaPicked | src/acme/main.cpp:1552-1565 | The records reported are those of type 257 that can be read, in order |
| DnsRules.TxtPicked | src/acme/main.cpp:1461-1473 | The texts reported are those of type 16, in order |
| DnsRules.TxtOverrun | src/acme/main.cpp:1463-1470 | A character-string longer than its data ends the text, and what came before it counts |
| DnsRules.Lowered | src/acme/main.cpp:1563 | Lowering leaves no capital letter and changes nothing but case |
| DnsAnswers.QueryTxt | src/acme/main.cpp:1426-1476 | The reader loops give the TXT texts of the reply, none when nothing usable came back |
| DnsAnswers.QueryCaa | src/acme/main.cpp:1499-1569 | The reader loops give records, no records or failure as the reply says |
| Names.DnsNameOk | src/lib/policy.cpp:108-131 | Accepts exactly names of 1 to 253 bytes whose base splits into labels of 1 to 63 letters, digits, hyphens and underscores with no hyphen at either end |
| Names.ValidNameExactly | src/lib/policy.cpp:108-131 | A name is valid if and only if it is 1 to 253 bytes of such labels joined by dots, perhaps behind one "*." |
| Names.ValidIsPlain | src/lib/policy.cpp:108-131 | What is left of a valid name without its wildcard is not a wildcard again |
| Names.OrderedNameAskedWhole | src/acme/main.cpp:1288-1300 | Every name an order may hold goes whole into a DNS question about its base |
| Caa.IssuerDomainExact | src/acme/main.cpp:1573-1580 | Blanks around the issuer name and parameters behind it are ignored, nothing else is |
| Caa.OrderIrrelevant | src/acme/main.cpp:1615-1643 | The verdict on a record set depends neither on order nor on repetition |
| Caa.AncestorsExact | src/acme/main.cpp:1598-1647 | The climb visits the name and every non-empty rest of it behind a dot, each shorter than the one before |
| Caa.NearestDecides | src/acme/main.cpp:1598-1648 | Nothing above the nearest decisive answer matters |
| Caa.CaaAllows | src/acme/main.cpp:1590-1649 | Allows exactly when the nearest non-empty record set permits or there is none; a name whose lookup failed twice refuses, and the refusal names it |
| Caa.Evaluate | src/acme/main.cpp:1615-1643 | issuewild before issue for wildcards, a critical unknown tag refuses, no applicable property allows |
| CaaRules.NamesExactly | src/acme/main.cpp:1573-1580 | A value names an issuer if and only if it is that name up to case, between blanks, with nothing but parameters behind a semicolon |
| CaaRules.AllowsExactly | src/acme/main.cpp:1615-1643 | A record set allows an issuer if and only if no critical tag is unknown and the applicable property is absent or names it; issuewild applies to a wildcard when present |
| CaaRules.AllowedExactly | src/acme/main.cpp:1590-1649 | Issuance is allowed if and only if every name above answers "none", or the longest one that does not has records that allow it; a failed lookup is asked twice |
| Http01.SamePrefixBits | src/lib/client_addr.cpp:63-76 | Prefix comparison by bytes and a mask is comparison of that many leading bits |
| Http01.RefusedExactly | src/acme/main.cpp:1792-1801 | Exactly 0/8, 169.254/16, 224/3, ::, fe80::/10 and ff00::/8 are refused, IPv4-mapped spellings included |
| Http01.Usable | src/acme/main.cpp:1857-1886 | The usable addresses are the resolved ones not refused, each once |
| Http01.UsableInOrder | src/acme/main.cpp:1857-1886 | They keep the order in which the resolver listed them |
| Http01.Addresses | src/acme/main.cpp:1857-1886 | The loop yields the usable addresses in resolver order |
| Http01.ParsedIsWellFormed | src/acme/main.cpp:1808-1851 | Every accepted URL, relative ones included, has scheme http or https, port 80 or 443, a clean non-empty host and a path; which one it is, `Http01Urls.ParsedExactly` says |
| Http01.AcceptedExactly | src/acme/main.cpp:1808-1851 | Exactly which URLs some absolute spelling is accepted as |
| Http01.PrintInvertedExactly | src/acme/main.cpp:1808-1851 | Parsing what is dialled gives the URL back if and only if the host is printable as stated |
| Http01.PrintNotAlwaysInverted | src/acme/main.cpp:1808-1851 | An accepted URL that does not come back |
| Http01Urls.ParsedExactly | src/acme/main.cpp:1808-1851 | A location is accepted as a URL if and only if it spells that URL: scheme in any case, host or bracketed address, port or none, path; absolute, scheme-relative or path only |
| Http01Urls.DefaultPort | src/acme/main.cpp:1838-1843 | Without a port, https reads as 443 and http as 80, and without a path as "/" |
| Http01Urls.PathOnly | src/acme/main.cpp:1812-1815 | A location of one slash keeps scheme, host and port, and its path is that location |
| Http01Urls.SchemeRelative | src/acme/main.cpp:1808-1815 | A location of two slashes reads as it would behind the scheme in use |
| Http01Urls.FaultsExactly | src/acme/main.cpp:1808-1851 | Why a location is refused: by its scheme, then credentials, then an open bracket, then host and port |
| Http01Urls.PortFaults | src/acme/main.cpp:1838-1849 | An unreadable port and a port other than 80 and 443 are told apart |
| Http01Urls.NoSeparator | src/acme/main.cpp:1815-1817 | A location without "://" is no URL |
| Http01Walk.FetchHttp01 | src/acme/main.cpp:1913-1972 | The loop's outcome and every address it dials are those of the walk |
| Http01Walk.Trimmed | src/acme/main.cpp:1964-1967 | Trailing blanks and line ends are removed, nothing else |
| Http01Walk.DialsChecked | src/acme/main.cpp:1913-1972 | Every dial is http or https on 80 or 443, at an address resolved at that hop and not refused, within eleven hops of one URL each |
| Http01Walk.ProvedExactly | src/acme/main.cpp:1913-1972 | Success if and only if a chain of at most eleven URLs redirects to one that serves the key authorization with status 200 |
| Http01Exact.FetchedExactly | src/acme/main.cpp:1913-1972 | The fetch ends in each of its ways if and only if first replies redirect, within eleven URLs, from the challenge URL to one where it ends so |
| Http01Exact.DialsExactly | src/acme/main.cpp:1913-1972 | It connects to an address if and only if redirects lead to a URL that resolves to it, it is not refused, and no address listed before it answered |
| Certs.RevocationFinal | src/lib/db_postgres.cpp:497-530 | Any reason but a hold makes a row final, and neither revoking nor releasing touches a final row |
| CmpServer.TransactionId | src/cmp/main.cpp:482-498 | The hex of a transactionID of at most 64 octets, empty otherwise |
| CmpServer.Server.constructor | src/cmp/main.cpp:98-170 | A server starts with the stored rows, nothing pending and no transaction |
| CmpServer.Server.ReapTxns | src/cmp/main.cpp:1363-1366 | Drops exactly the transactions idle beyond the window |
| CmpServer.Server.HandleCmp | src/cmp/main.cpp:1520-1752 | The new state and reply are a function of the old rows and this message alone: nothing an earlier request left in the per-request fields matters |
| CmpServer.Server.Recover | src/cmp/main.cpp:1650-1701 | After the reset and recovery the per-request fields are those of this message |
| CmpServer.Server.CmpIdentity | src/cmp/main.cpp:384-447 | The branches over the per-request fields equal `Cmp.Identity` of those fields and the store |
| CmpServer.Server.CertRequestCb | src/cmp/main.cpp:500-755 | Equals `Cmp.Request`, every case of which `CmpRules.RequestedExactly` states: who is granted what, and a refusal changes nothing |
| CmpServer.Server.RevokeCert | src/lib/db_postgres.cpp:497-513 | Changes the row exactly when the update's predicate matches |
| CmpServer.Server.RrCb | src/cmp/main.cpp:762-874 | Equals `Cmp.Revoke`, every case of which `CmpRules.RevokedExactly` states: every refusal path leaves every row alone |
| CmpServer.Server.CertConfCb | src/cmp/main.cpp:881-930 | Equals `Cmp.Confirm`, every case of which `CmpRules.ConfirmedExactly` states: a rejected certificate is revoked, an accepted one valid |
| CmpRuns.TxidInjective | src/cmp/main.cpp:482-498 | Distinct usable transactionIDs have distinct hex |
| CmpRuns.ConfirmKeyInjective | src/cmp/main.cpp:160-167 | A confirm key determines its transaction and certReqId |
| CmpRuns.NonInterference | src/cmp/main.cpp:482-930 | For every interleaving, a transaction's certificates end as, and its admitted messages are answered as, when those messages run alone, provided no other transaction draws or names its serials |
| CmpRuns.TableBounded | src/cmp/main.cpp:1531-1556 | At most 512 transactions are ever open |
| CmpRuns.TableStep | src/cmp/main.cpp:1350-1366 | A request drops only idle entries and adds or refreshes only its own |
| CmpRuns.ActiveKept | src/cmp/main.cpp:1350-1556 | A transaction never silent for longer than the window keeps its context through any other requests and is never refused for capacity |
| CmpRuns.RowChanges | src/cmp/main.cpp:500-930 | A row changes only by being issued, by an authorized revocation naming it, or by the certConf it awaits |
| CmpRuns.RevocationsAuthorized | src/cmp/main.cpp:762-852 | In every run, an accepted revocation came from a bound non-PBM caller for a row of the endpoint's CA that the caller owns or may revoke, and revoked it |
| CmpRuns.IdentityTrusted | src/cmp/main.cpp:384-447 | An identity is never taken from a signing certificate the store holds as other than valid, and is its owner when one is recorded |
| CmpRuns.UnconfirmedNeverValid | src/cmp/main.cpp:686-692 | A certificate issued without implicit confirmation has the requester as owner on the endpoint's CA and is never valid before its own accepting certConf, however many rejections and other messages come |
| CmpRuns.RevokedReturnsExactly | src/cmp/main.cpp:881-930 | A revoked row becomes valid again if and only if the message is the dispatched, accepting certConf it awaits |
| CmpRuns.RevokedCanReturn | src/cmp/main.cpp:500-930 | For any user, CA, serial, allowed reason and two transactionIDs, a run from the empty server: enrolled, revoked by its owner under the other transaction, and valid again after its certConf |
| CmpRuns.ConfirmProvenance | src/cmp/main.cpp:686-692 | In every run, each awaited confirmation was put there by an accepted request of exactly that transaction and certReqId, for the serial it issued |
| CmpRules.RequestedExactly | src/cmp/main.cpp:500-755 | A request is granted if and only if it is let in at its own endpoint, the caller may enrol and the serial is new; then exactly one row, valid only with implicit confirmation, and one awaited entry are added; every refusal with its reply |
| CmpRules.RevokedExactly | src/cmp/main.cpp:762-874 | A revocation is granted if and only if the caller is not PBM, has an identity, owns the row or may revoke on the CA, the reason is allowed and the row is not finally revoked; then exactly that row is revoked; every refusal with its reply |
| CmpRules.ConfirmedExactly | src/cmp/main.cpp:881-930 | The awaited certConf makes its row valid when accepting, and revokes it when rejecting unless it was final before; the entry is gone and nothing else changes |
| CmpRules.OtherExactly | src/cmp/main.cpp:1520-1752 | Any other message changes neither rows nor awaited confirmations |
| CmpRules.EnrolmentsAuthorized | src/cmp/main.cpp:500-755 | In every run, a request is accepted if and only if its caller may enrol in the state it met |
| CmpRules.TableExactly | src/cmp/main.cpp:1531-1556 | The table holds exactly the transactions heard from within ten minutes, and the message's own when there is room among 512 |
| CmpRules.TxidRule | src/cmp/main.cpp:482-498 | Up to 64 octets are written in hexadecimal, anything else counts as none |
| RaKey.InvariantKept | src/cmp/main.cpp:119-136 | Every step of every thread keeps the publication invariant |
| RaKey.Safety | src/cmp/main.cpp:1386-1605 | In every interleaving the mode is on only with a key, nothing absent is read, the key checked is the key bound, and every signing pair is certified |
| RaKey.FaultRecorded | src/cmp/main.cpp:1594-1605 | A fault is on record exactly when some step read an absent key or certificate, so the safety theorem excludes every such read |
| RaKey.LateKeyPublished | src/cmp/main.cpp:1386-1407 | A process started without its key serves once the watcher has found it |
| RaKey.RequestServed | src/cmp/main.cpp:1594-1605 | A request that finds the mode on is signed with the certificate and key it checked |
| RaKey.ReloadReplaces | src/cmp/main.cpp:1854-1865 | A reload puts its key in the place of the old one and changes nothing else |
| RaKey.RequestRefused | src/cmp/main.cpp:1594-1605 | A request that finds the mode off, or whose certificate is not for the key, ends unsigned and leaves the mutex free |
| AcmeServer.Server.constructor | include/pki/acme_db.hpp:91-165 | A server starts from an empty ACME store beside the certificates already stored |
| AcmeServer.Server.ConsumeNonce | src/acme/main.cpp:194-197 | A known nonce is removed, an unknown one refused |
| AcmeServer.Server.FindByKey | include/pki/acme_db.hpp:102-106 | Finds an account with the key, or there is none |
| AcmeServer.Server.AnyOutstanding | include/pki/acme_db.hpp:138-140 | Whether some ticket is unclaimed and unexpired |
| AcmeServer.Server.FindValidAuthz | src/lib/acme_db_postgres.cpp:234-249 | A proven, unexpired authorization of the account for exactly the identifier if there is one, and none only if there is none |
| AcmeServer.Server.TicketByOrder | src/lib/acme_db_postgres.cpp:379-388 | The ticket that backs the order, if there is one |
| AcmeServer.Server.Perform | src/acme/main.cpp:3014-3065 | Whatever event it is given, the object takes exactly the step of `Acme` for that event with the lookups answered from its own rows, and the step is legal when the drawn ids are new |
| AcmeServer.Server.PerformAll | src/acme/main.cpp:3014-3065 | Any sequence of events is a run of `Acme`, possible when the ids drawn along it are new, so that every theorem over runs is about the object |
| AcmeServer.Server.CreateTicket | src/lib/acme_db_postgres.cpp:352-366 | A new ticket is unclaimed, unattested and without a certificate |
| AcmeServer.Server.CancelUnclaimed | src/lib/acme_db_postgres.cpp:404-412 | A ticket an order has claimed cannot be cancelled |
| AcmeServer.Server.HandlePost | src/acme/main.cpp:174-263 | The in-place request equals `Acme.Answer`: a request with an unknown nonce, a wrong signer or a deactivated account leaves every row as it was |
| AcmeServer.Server.HandleNewAccount | src/acme/main.cpp:429-510 | Equals `Acme.CreateAccount`, the step that keeps keys distinct: a known key gets its account back unchanged |
| AcmeServer.Server.HandleAccount | src/acme/main.cpp:1024-1084 | Equals `Acme.DeactivateAccount`: no account can be deactivated by another |
| AcmeServer.Server.HandleKeyChange | src/acme/main.cpp:1114-1201 | Equals `Acme.ChangeKey`, the step that can never give two accounts one key |
| AcmeServer.Server.NewAuthorization | src/acme/main.cpp:633-672 | Equals `Acme.MakeAuthz`: the stored identifier is the bare name, flagged when it was a wildcard, and a wildcard is offered dns-01 alone |
| AcmeServer.Server.HandleNewOrder | src/acme/main.cpp:785-990 | Equals `Acme.PlaceOrder`: a refused order leaves no partial rows, an accepted one has an authorization for every identifier |
| AcmeServer.Server.PlaceDns | src/acme/main.cpp:948-984 | The order is ready at once exactly when every identifier was reused; with new ids the answers found make the order legal |
| AcmeServer.Server.PlaceEach | src/acme/main.cpp:965-982 | The loop over identifiers equals the fold `Acme.PlaceAuthzs`, each lookup answered in the state its turn comes in |
| AcmeServer.Server.PlaceOne | src/acme/main.cpp:966-981 | Reuse only of a proven, unexpired authorization of the account for exactly this identifier, and a new one only when there is none or reuse is off |
| AcmeServer.Server.HandleDeviceOrder | src/acme/main.cpp:698-782 | Equals `Acme.DeviceOrder`: a ticket is claimed by one order, and a registered serial gets a claimed ticket expecting that serial |
| AcmeServer.Server.HandleNewAuthz | src/acme/main.cpp:997-1021 | Equals `Acme.PreAuthorize`, the only source of authorizations without an order |
| AcmeServer.Server.HandleAuthz | src/acme/main.cpp:1228-1280 | Equals `Acme.DeactivateAuthz`: only the owner changes an authorization, and only its status |
| AcmeServer.Server.EveryProven | src/acme/main.cpp:2046-2051 | The loop finds out whether every authorization of the order is valid |
| AcmeServer.Server.HandleChallenge | src/acme/main.cpp:2173-2230 | Equals `Acme.Trigger`: only an untried challenge of the caller is handed to a verifier |
| AcmeServer.Server.HandleDeviceAttest | src/acme/main.cpp:2086-2171 | Equals `Acme.Attest` for the ticket the order holds: a decided challenge is never decided again, and only the expected serial is recorded |
| AcmeServer.Server.VerifierStart | src/acme/main.cpp:1978-1995 | Equals `Acme.StartVerifier`: what will be written back is a snapshot of rows that may change meanwhile |
| AcmeServer.Server.VerifierFinish | src/acme/main.cpp:1997-2060 | Equals `Acme.FinishVerifier`: the stale snapshot overwrites the rows, a wildcard only on dns-01, the order only when all its authorizations are valid now |
| AcmeServer.Server.DropSiblings | src/acme/main.cpp:2037-2039 | The loop leaves exactly the verified challenge and the challenges of other authorizations |
| AcmeServer.Server.HandleFinalize | src/acme/main.cpp:2233-2626 | Equals `Acme.FinalizeOrder` for the ticket the order holds, the only step that issues; the soundness theorems are about it |
| AcmeServer.Server.IssueToDevice | src/acme/main.cpp:2334-2615 | Equals `Acme.FinalizeDevice`, every case of which `AcmeOrderRules.OrderRule` and `AcmeCertRules.CertRule` state: only the attested key is certified, and every other certificate of the device is superseded in the same step |
| AcmeServer.Server.IssueToNames | src/acme/main.cpp:2350-2615 | Equals `Acme.FinalizeDns`, every case of which `AcmeOrderRules.OrderRule` and `IssueRule` state: it issues exactly when the SANs are the ordered names, a common name is one of them, and CAA allows each |
| AcmeServer.Server.Supersede | src/acme/main.cpp:2590-2611 | The loop revokes every earlier certificate not final already, whatever the order it meets them in |
| AcmeServer.Server.HandleRevokeCert | src/acme/main.cpp:2710-2812 | Equals `Acme.RevokeByHolder`, every case of which `AcmeCertRules.RevokedByHolderExactly` states: only the owner or the certificate key itself, and never a row that is final |
| AcmeRules.NonceRule | src/acme/main.cpp:134-197 | At every event: a request uses up the nonce it brings, and every answer adds one |
| AcmeRules.AccountRule | src/acme/main.cpp:429-1189 | Every account at every event: created exactly for a new key with a bound user or while a device may still enrol, deactivated and rekeyed exactly by its own requests, and otherwise unchanged |
| AcmeOrderRules.OrderRule | src/acme/main.cpp:785-2626 | Every order at every event: placed exactly when the names are valid and the user may enrol, or the device order is entitled; ready exactly with the last proof; served exactly when the names or the attested key match, CAA and the CA agree and the user may enrol; and otherwise unchanged |
| AcmeOrderRules.IssueRule | src/acme/main.cpp:2233-2626 | A certificate is issued exactly when an order is served, to that account and owner, with those names and that key |
| AcmeOrderRules.RunIssues | src/acme/main.cpp:2233-2626 | In every run, the certificates issued are exactly those of its granted finalize requests |
| AcmeAuthzRules.AuthzRule | src/acme/main.cpp:633-2167 | Every authorization at every event: placed new or as a copy of a valid, unexpired one, deactivated by its owner, proved by its device or a verifier, and otherwise unchanged |
| AcmeAuthzRules.ChallengeRule | src/acme/main.cpp:633-2230 | Every challenge at every event: offered by kind of identifier, tried once by its owner, decided, removed beside a success, and otherwise unchanged |
| AcmeAuthzRules.VerifierRule | src/acme/main.cpp:1978-2060 | Which challenges wait and which verifiers are out, with exactly the rows they took along |
| AcmeAuthzRules.ProofRule | src/acme/main.cpp:1997-2045 | A proof is recorded exactly when a verifier succeeds, a wildcard by dns-01 |
| AcmeTicketRules.TicketRule | src/lib/acme_db_postgres.cpp:352-470 | Every ticket at every event: made unclaimed, cancelled only unclaimed, claimed once, given the attested serial and key, given its certificate, and otherwise unchanged |
| AcmeTicketRules.DeviceOrderedExactly | src/acme/main.cpp:698-782 | A device order is placed if and only if it names one device, by an unclaimed, unexpired ticket of that CA or a serial registered for it, and the owner may enrol |
| AcmeTicketRules.AttestationRule | src/acme/main.cpp:2086-2171 | An attestation is recorded exactly when the owner of an untried device challenge brings one that verifies for the expected serial |
| AcmeTicketRules.SerialRule | src/lib/acme_db_postgres.cpp:477-500 | Serials are registered and removed by the administrator alone |
| AcmeCertRules.RevokedByHolderExactly | src/acme/main.cpp:2710-2812 | A revocation request changes the store if and only if the row exists, the reason is allowed, the row is valid or held for another reason, and its owner or its own key asks; then exactly that row is revoked |
| AcmeCertRules.CertRule | src/acme/main.cpp:2455-2812 | Every certificate row at every event: issued, superseded by a newer certificate of the device, revoked by its holder or an administrator, released from a hold, and otherwise unchanged |
| AcmeCertRules.RowKept | src/acme/main.cpp:2455-2812 | However long the run, a certificate row is as it was unless it was issued, superseded, revoked by its holder or an administrator, or released |
| AcmeKeys.KeysDistinct | src/acme/main.cpp:440-1189 | In every run no two accounts share a key, a binding never changes, deactivation is for good |
| AcmeKeys.DeadKeyInert | src/acme/main.cpp:239-260 | However much later, a request signed by a deactivated account's key changes no account and no order and issues nothing |
| AcmeKeys.DeadKeyNotTaken | src/acme/main.cpp:1172-1189 | No other account ever holds a dead key |
| AcmeKeys.NonceOnce | src/acme/main.cpp:194-197 | A nonce accepted once is refused ever after |
| AcmeLinks.StepKeeps | include/pki/acme_db.hpp:27-60 | Every step keeps authorizations with their order's account, challenges of the right kind, snapshots in agreement with the rows they overwrite, and an authorization for every ordered name |
| AcmeProofs.NamesIssuedSoundly | src/acme/main.cpp:2233-2389 | For every run and every certificate issued on names: the account owns the order, the CA is the recorded one, the SANs are the ordered names, and each name has an authorization of that order that was proved for that account |
| AcmeProofs.WildcardsByDns01 | src/acme/main.cpp:2004-2009 | In every run a wildcard SAN rests on a flagged authorization and a dns-01 success of the same account for the authorization's stored name, reuse included |
| AcmeAuthzs.RunPlainExactly | src/acme/main.cpp:635-643 | In every run, authorizations on names are all stored under names that are not wildcards if and only if no wildcard of a wildcard was pre-authorized |
| AcmeAuthzs.ValidNeverDouble | src/acme/main.cpp:1007-1014 | It never is when the pre-authorized names are valid ones |
| AcmeAuthzs.WildcardsByBase | src/acme/main.cpp:2004-2035 | In every run without such a pre-authorization, a wildcard SAN rests on a dns-01 success of the same account for its base name |
| AcmeWild.WildcardNotByBase | src/acme/main.cpp:997-1021 | A run from an empty store that issues a wildcard although nothing was proved about its base name |
| AcmeAuthzs.RevivedExactly | src/acme/main.cpp:2030-2167 | A deactivated authorization becomes valid again if and only if a verifier under way for it comes back with success, or its device attestation is accepted; otherwise it stays deactivated |
| AcmeAuthzs.StaysDeactivated | src/acme/main.cpp:1228-1280 | However long the run, without one of those it stays deactivated |
| AcmeRows.IssuedRowsMatch | src/acme/main.cpp:2455-2540 | In every run each issue has its own serial and a stored row with its owner and CA; on names the owner is the account's bound user |
| AcmeDevices.DevicesIssuedSoundly | src/acme/main.cpp:2334-2349 | For every run and every certificate issued to a device: exactly the attested key, the ticket's owner, the ticket's CA, and the expected serial when one is registered |
| AcmeDevices.TicketBacksOneOrder | include/pki/acme_db.hpp:134-137 | A claimed ticket keeps its order for good and no other ticket ever backs it |
| AcmeDevices.OneLivePerDevice | src/acme/main.cpp:2571-2612 | In every run, of two certificates issued for one attested device one is finally revoked, also when the older was on hold |
| AcmeCounts.ServedExactly | src/acme/main.cpp:2030-2615 | In every run the certificates of an order, and the one it is ready for, are exactly as many as the times it became ready; they are one for being valid now and one for every time it was reopened |
| AcmeCounts.ServedOnceExactly | src/acme/main.cpp:2030-2615 | In every run an order has at most one certificate if and only if it was not reopened, or reopened once and not served since |
| AcmeCounts.DeviceOrderServedOnce | src/acme/main.cpp:2100-2167 | A device order yields one certificate at most |
| AcmeCounts.ReopenedExactly | src/acme/main.cpp:2030-2052 | A served order becomes ready again if and only if a verifier under way for it comes back with success and all its authorizations are then valid |
| AcmeBlocked.FinalizeIgnoresAuthzs | src/acme/main.cpp:2233-2626 | Whatever became of the authorizations, finalize does the same to every other row |
| AcmeBlocked.BlockedStaysPending | src/acme/main.cpp:1228-2052 | However long the run, an order pending when one of its authorizations was deactivated stays pending and gets no certificate unless that authorization is revived |
| AcmeReissue.NamesServedTwice | src/acme/main.cpp:2030-2052 | A run from an empty store in which one order on one name yields two certificates |
| AcmeReissue.DeactivatedReturns | src/acme/main.cpp:2030-2052 | A run from an empty store in which a deactivated authorization is valid again |
| AcmeReissue.DeactivatedServed | src/acme/main.cpp:2233-2626 | A run from an empty store in which an order is served after its only authorization was deactivated |

## Left out

- Signature, HMAC, X.509 and PKCS#11 calls, audit_sign_head and audit_verify_head: outside verdicts, no property of their own here.
- Parsing of JSON, JWS and base64url, RBAC, profiles, quotas and PostgreSQL: their answers are parts of the events.
- HTTP routing, TLS, configuration, logging and response bodies: the model says what is stored, not what is printed.
- Read-only routes (directory, order, orders list, certificate download): they change no row.
- Order expiry: finalize never reads it, and the sweep that deletes expired orders and nonces is not modelled.
- AcmeServer.Server.HandleDeviceOrder: the authorization's expiry is drawn with its ids; that it is capped by the ticket's own is not modelled, since only orders on names ever look it up.
- The tls-alpn-01 and dns-01 exchanges: a verifier's success is a value; the DNS and http-01 code is verified on its own.
- Store failures in the ACME server: every write goes through, as OneLivePerDevice needs for the superseding writes.
- 64-bit arithmetic of the audit numbers: numbers are unbounded, so the step past the largest int64 is not modelled.
- ASCII lower-casing stands for std::tolower in the C locale.
- AcmeServer.Server.HandleNewOrder: identifiers that are not objects are refused before the model's list of identifiers; a device identifier always has a value.
- RaKey.Safety: the use of the key after the mutex is released, at the token liveness check on a failed response, is not modelled.
- CmpRuns.NonInterference: messages without a usable transactionID share one context in the source; the theorem is for usable ids, and counts the messages the table admitted.
- Bounds on the map of awaited confirmations: entries go only on certConf, so there is none.
