# StrongKey FIDO2 server: CORS filter and LDAP user metadata, in Dafny

This project models two small pieces of the StrongKey FIDO2 server and proves
properties of them.

* **The cross-origin resource sharing response filter.** When the filter is set up,
  the configured origins string is turned into an allow-list: no list when
  the setting is null or empty, otherwise the string split at commas with the
  whitespace next to each comma absorbed (`split("\\s*,\\s*")`). For each
  response, if the request's `Origin` is on the list, four headers are
  replaced by single values: `Access-Control-Allow-Origin` (the Origin),
  `Access-Control-Allow-Methods` and `Access-Control-Allow-Headers` (the
  configured strings), and `Vary: Origin`. Otherwise the headers stay as they were.
* **The LDAP user-metadata object.** It has thirteen nullable fields, two
  constructors, and getters and setters. `getJSONObject` first replaces a
  null `defaultcommunication` by `""`, in the object itself. It then projects
  the fields onto thirteen JSON members in a fixed order. `toString` prints
  twelve labelled lines: it leaves out `primaryphone` and labels
  `defaultcommunication` as `defaulttarget`.

Files:

* `wrappers.dfy`: `Option`, which stands for Java's nullable references.
* `java_text.dfy`: the Java library behaviour the model relies on. This is
  cutting a string at a separator character (with its inverse, joining), and
  the decimal text of a `long` (with its inverse, parsing).
* `cors_filter.dfy`: the allow-list, the filter as a pure function on header
  maps, and the filter as a class whose `Filter` method updates a response's
  header map in place with `PutSingle`.
* `ldap_user_metadata.dfy`: the fields as a `Metadata` value, the
  normalisation, the JSON projection, the text form, and the
  `LDAPUserMetadata` class with its fields, constructors, accessors,
  `GetJSONObject` and `ToString`.

In the source, the key-access capability (`getXMLSignatureSigningKey` in
`server/crypto/src/main/java/com/strongkey/crypto/interfaces/CryptoModule.java`)
is only an interface method with no body, so there is nothing behind it to
model.

## Model

| member | source | states |
|---|---|---|
| JavaText.Split | server/api/src/main/java/com/strongkey/apiws/filters/CrossOriginResourceSharingFilter.java:26 | the pieces between the separators: at least one, none holding the separator, and joined back with the separator they give the original string |
| JavaText.SplitOfJoin | server/api/src/main/java/com/strongkey/apiws/filters/CrossOriginResourceSharingFilter.java:26 | cutting a join of separator-free pieces gives exactly those pieces back |
| CorsFilter.TrimLeading | server/api/src/main/java/com/strongkey/apiws/filters/CrossOriginResourceSharingFilter.java:26 | removes exactly the maximal run of `\s` characters at the front (the part the separator's trailing `\s*` absorbs) |
| CorsFilter.TrimTrailing | server/api/src/main/java/com/strongkey/apiws/filters/CrossOriginResourceSharingFilter.java:26 | removes exactly the maximal run of `\s` characters at the back (the part the separator's leading `\s*` absorbs) |
| CorsFilter.Absorb | server/api/src/main/java/com/strongkey/apiws/filters/CrossOriginResourceSharingFilter.java:26 | the token left of one comma-separated piece: its core, i.e. the piece less the whole whitespace run next to each of its commas (front only after a comma, back only before one) |
| CorsFilter.DropTrailingEmpty | server/api/src/main/java/com/strongkey/apiws/filters/CrossOriginResourceSharingFilter.java:26 | a prefix of the list that ends in a non-empty string, everything dropped being empty (split with no limit) |
| CorsFilter.Tokens | server/api/src/main/java/com/strongkey/apiws/filters/CrossOriginResourceSharingFilter.java:26 | comma-free tokens, the first |r| of them the cores of the first |r| pieces, every piece after them whitespace only, and the last token non-empty |
| CorsFilter.SplitAtCommas | server/api/src/main/java/com/strongkey/apiws/filters/CrossOriginResourceSharingFilter.java:26 | `split("\\s*,\\s*")`: the whole string when it holds no comma; otherwise token i is the core of the i-th comma-separated piece (the piece less the whole whitespace runs beside its commas), the pieces after the last token are whitespace only, and the last token is not empty |
| CorsFilter.CoreUnique | server/api/src/main/java/com/strongkey/apiws/filters/CrossOriginResourceSharingFilter.java:26 | a piece has one core only: the whitespace that the separator absorbs is determined |
| CorsFilter.TokensUnique | server/api/src/main/java/com/strongkey/apiws/filters/CrossOriginResourceSharingFilter.java:26 | for two or more pieces, the token list described by the contract of Tokens is unique |
| CorsFilter.SplitAtCommasUnique | server/api/src/main/java/com/strongkey/apiws/filters/CrossOriginResourceSharingFilter.java:26 | any list meeting the contract of SplitAtCommas for a string with a comma is the split itself, so that contract pins the result |
| CorsFilter.SplitAtCommasOfJoin | server/api/src/main/java/com/strongkey/apiws/filters/CrossOriginResourceSharingFilter.java:26 | round trip: a list of origins joined with commas splits back into the same list (no commas, no whitespace beside the commas, last one non-empty) |
| CorsFilter.SplitAtCommasOfSpacedJoin | server/api/src/main/java/com/strongkey/apiws/filters/CrossOriginResourceSharingFilter.java:26 | round trip with whitespace: origins joined by commas with any whitespace on either side of each comma split back into exactly those origins (no commas, none but the first starting and none but the last ending with whitespace, last one non-empty) |
| CorsFilter.TokensOfClean | server/api/src/main/java/com/strongkey/apiws/filters/CrossOriginResourceSharingFilter.java:26 | clean pieces whose last piece is non-empty are left exactly as they are by absorbing and dropping trailing empties |
| CorsFilter.ParseAllowList | server/api/src/main/java/com/strongkey/apiws/filters/CrossOriginResourceSharingFilter.java:25-27 | no list exactly when the configured origins string is null or empty; otherwise the list is the string split at commas with the whitespace beside them absorbed (SplitAtCommas), the whole string when it has no comma |
| CorsFilter.Filtered | server/api/src/main/java/com/strongkey/apiws/filters/CrossOriginResourceSharingFilter.java:30-40 | headers unchanged unless the Origin is present and on the list; then the four CORS headers hold exactly one value each (the Origin, the methods, the headers, `Origin`), and every other header name keeps its values |
| CorsFilter.UnconfiguredNeverChanges | server/api/src/main/java/com/strongkey/apiws/filters/CrossOriginResourceSharingFilter.java:25-32 | with the origins setting null or empty the filter leaves every response's headers as they were |
| CorsFilter.FilteredIdempotent | server/api/src/main/java/com/strongkey/apiws/filters/CrossOriginResourceSharingFilter.java:32-38 | filtering the filtered headers again gives the same headers |
| CorsFilter.ResponseHeaders.constructor | server/api/src/main/java/com/strongkey/apiws/filters/CrossOriginResourceSharingFilter.java:30 | a response whose header map is the given one |
| CorsFilter.ResponseHeaders.PutSingle | server/api/src/main/java/com/strongkey/apiws/filters/CrossOriginResourceSharingFilter.java:34-37 | the name's values are replaced by the single value; no other name changes |
| CorsFilter.CrossOriginResourceSharingFilter.constructor | server/api/src/main/java/com/strongkey/apiws/filters/CrossOriginResourceSharingFilter.java:21-27 | the allow-list is derived from the origins setting once; methods and headers settings kept as given |
| CorsFilter.CrossOriginResourceSharingFilter.Filter | server/api/src/main/java/com/strongkey/apiws/filters/CrossOriginResourceSharingFilter.java:30-40 | the response's new headers are `Filtered` of its old headers for this configuration and Origin |
| LdapUserMetadata.Normalized | server/common/src/main/java/com/strongkey/skce/pojos/LDAPUserMetadata.java:103-105 | a null defaultcommunication becomes the empty string; a non-null one and every other field are unchanged |
| LdapUserMetadata.NormalizedIdempotent | server/common/src/main/java/com/strongkey/skce/pojos/LDAPUserMetadata.java:103-105 | normalising twice is normalising once, so a second getJSONObject changes no field |
| LdapUserMetadata.Entries | server/common/src/main/java/com/strongkey/skce/pojos/LDAPUserMetadata.java:107-121 | defined exactly when no field is null; then 13 entries whose keys follow the fixed order commonname, dn, uid, fname, surname, emailaddresses, primaryemail, phonenumbers, primaryphone, defaulttarget, fidoenabled, 2stepverify, domainid, each carrying the value of its field |
| LdapUserMetadata.GetAt | server/common/src/main/java/com/strongkey/skce/pojos/LDAPUserMetadata.java:107-121 | a lookup by key finds the first entry with that key |
| LdapUserMetadata.EntriesLookup | server/common/src/main/java/com/strongkey/skce/pojos/LDAPUserMetadata.java:107-120 | looking up any key in the projection gives back the field it is built from (commonname←username, dn←userdn, fname←firstname, surname←lastname, defaulttarget←defaultcommunication, fidoenabled←fidokeysenabled, 2stepverify←twostepverification, domainid←did, the rest by name) |
| LdapUserMetadata.NormalizedEntriesDefined | server/common/src/main/java/com/strongkey/skce/pojos/LDAPUserMetadata.java:101-121 | after normalisation the projection exists exactly when no field other than defaultcommunication is null, and its defaulttarget is the old defaultcommunication or the empty string |
| LdapUserMetadata.Shown | server/common/src/main/java/com/strongkey/skce/pojos/LDAPUserMetadata.java:241-252 | twelve printed values; the ninth is defaultcommunication, printed under the label defaulttarget |
| LdapUserMetadata.ShownIgnoresPrimaryPhone | server/common/src/main/java/com/strongkey/skce/pojos/LDAPUserMetadata.java:241-252 | the text form omits primaryphone: changing it changes nothing printed |
| LdapUserMetadata.RenderIsJoin | server/common/src/main/java/com/strongkey/skce/pojos/LDAPUserMetadata.java:241-252 | appending the labelled lines after a first piece is the same as joining that piece and the `    label = value` bodies with line feeds |
| LdapUserMetadata.RenderLines | server/common/src/main/java/com/strongkey/skce/pojos/LDAPUserMetadata.java:241-252 | rendered lines cut at line feeds give an empty piece and then one `    label = value` body per label, in order (when no value holds a line feed) |
| LdapUserMetadata.LabelsFreeOfLineFeeds | server/common/src/main/java/com/strongkey/skce/pojos/LDAPUserMetadata.java:241-252 | none of the twelve printed labels holds a line feed |
| LdapUserMetadata.TextLines | server/common/src/main/java/com/strongkey/skce/pojos/LDAPUserMetadata.java:241-252 | the text form is exactly twelve lines `\n    <label> = <value>` in the fixed label order (when no value holds a line feed) |
| JavaText.Decimal | server/common/src/main/java/com/strongkey/skce/pojos/LDAPUserMetadata.java:252 | the decimal digits of a natural: non-empty, ASCII digits only, exactly `0` for zero and otherwise no leading zero |
| JavaText.DecimalRoundTrip | server/common/src/main/java/com/strongkey/skce/pojos/LDAPUserMetadata.java:252 | the digits read back as the number they were made from |
| JavaText.LongString | server/common/src/main/java/com/strongkey/skce/pojos/LDAPUserMetadata.java:252 | how `did` prints, as `Long.toString`: exactly `0` for zero; otherwise a minus sign exactly for negative values, then a non-empty run of ASCII digits whose first digit is not `0` |
| JavaText.LongStringRoundTrip | server/common/src/main/java/com/strongkey/skce/pojos/LDAPUserMetadata.java:252 | parsing the printed long gives the long back |
| LdapUserMetadata.LDAPUserMetadata.constructor | server/common/src/main/java/com/strongkey/skce/pojos/LDAPUserMetadata.java:61-87 | each argument stored in its like-named field, defaultcomm in defaultcommunication |
| LdapUserMetadata.LDAPUserMetadata.FromNames | server/common/src/main/java/com/strongkey/skce/pojos/LDAPUserMetadata.java:89-95 | username, userdn, firstname, lastname, uid from commonname, principal, fname, surname, uid; the other eight fields null |
| LdapUserMetadata.LDAPUserMetadata.GetJSONObject | server/common/src/main/java/com/strongkey/skce/pojos/LDAPUserMetadata.java:101-124 | the fields become their normalised form (the change persists) and the result is the projection of the normalised fields |
| LdapUserMetadata.LDAPUserMetadata.ToString | server/common/src/main/java/com/strongkey/skce/pojos/LDAPUserMetadata.java:239-253 | reads only the object; the text is always the twelve `\n    label = value` lines of the current fields in the fixed label order (defaulttarget for defaultcommunication, no primaryphone, `null` for a null field); and when no printed value holds a line feed, cut at line feeds it gives an empty piece followed by exactly those twelve lines |
| LdapUserMetadata.LDAPUserMetadata.GetUsername | server/common/src/main/java/com/strongkey/skce/pojos/LDAPUserMetadata.java:138-140 | the value currently held in `username` |
| LdapUserMetadata.LDAPUserMetadata.SetUsername | server/common/src/main/java/com/strongkey/skce/pojos/LDAPUserMetadata.java:142-144 | `username` holds the new value; every other field is unchanged |
| LdapUserMetadata.LDAPUserMetadata.GetUserdn | server/common/src/main/java/com/strongkey/skce/pojos/LDAPUserMetadata.java:146-148 | the value currently held in `userdn` |
| LdapUserMetadata.LDAPUserMetadata.SetUserdn | server/common/src/main/java/com/strongkey/skce/pojos/LDAPUserMetadata.java:150-152 | `userdn` holds the new value; every other field is unchanged |
| LdapUserMetadata.LDAPUserMetadata.GetFirstname | server/common/src/main/java/com/strongkey/skce/pojos/LDAPUserMetadata.java:154-156 | the value currently held in `firstname` |
| LdapUserMetadata.LDAPUserMetadata.SetFirstname | server/common/src/main/java/com/strongkey/skce/pojos/LDAPUserMetadata.java:158-160 | `firstname` holds the new value; every other field is unchanged |
| LdapUserMetadata.LDAPUserMetadata.GetLastname | server/common/src/main/java/com/strongkey/skce/pojos/LDAPUserMetadata.java:162-164 | the value currently held in `lastname` |
| LdapUserMetadata.LDAPUserMetadata.SetLastname | server/common/src/main/java/com/strongkey/skce/pojos/LDAPUserMetadata.java:166-168 | `lastname` holds the new value; every other field is unchanged |
| LdapUserMetadata.LDAPUserMetadata.GetEmailaddresses | server/common/src/main/java/com/strongkey/skce/pojos/LDAPUserMetadata.java:170-172 | the value currently held in `emailaddresses` |
| LdapUserMetadata.LDAPUserMetadata.SetEmailaddresses | server/common/src/main/java/com/strongkey/skce/pojos/LDAPUserMetadata.java:174-176 | `emailaddresses` holds the new value; every other field is unchanged |
| LdapUserMetadata.LDAPUserMetadata.GetPrimaryemail | server/common/src/main/java/com/strongkey/skce/pojos/LDAPUserMetadata.java:178-180 | the value currently held in `primaryemail` |
| LdapUserMetadata.LDAPUserMetadata.SetPrimaryemail | server/common/src/main/java/com/strongkey/skce/pojos/LDAPUserMetadata.java:182-184 | `primaryemail` holds the new value; every other field is unchanged |
| LdapUserMetadata.LDAPUserMetadata.GetPhonenumbers | server/common/src/main/java/com/strongkey/skce/pojos/LDAPUserMetadata.java:186-188 | the value currently held in `phonenumbers` |
| LdapUserMetadata.LDAPUserMetadata.SetPhonenumbers | server/common/src/main/java/com/strongkey/skce/pojos/LDAPUserMetadata.java:190-192 | `phonenumbers` holds the new value; every other field is unchanged |
| LdapUserMetadata.LDAPUserMetadata.GetPrimaryphone | server/common/src/main/java/com/strongkey/skce/pojos/LDAPUserMetadata.java:194-196 | the value currently held in `primaryphone` |
| LdapUserMetadata.LDAPUserMetadata.SetPrimaryphone | server/common/src/main/java/com/strongkey/skce/pojos/LDAPUserMetadata.java:198-200 | `primaryphone` holds the new value; every other field is unchanged |
| LdapUserMetadata.LDAPUserMetadata.GetDefaultcommunication | server/common/src/main/java/com/strongkey/skce/pojos/LDAPUserMetadata.java:202-204 | the value currently held in `defaultcommunication` |
| LdapUserMetadata.LDAPUserMetadata.SetDefaultcommunication | server/common/src/main/java/com/strongkey/skce/pojos/LDAPUserMetadata.java:206-208 | `defaultcommunication` holds the new value; every other field is unchanged |
| LdapUserMetadata.LDAPUserMetadata.GetFidokeysenabled | server/common/src/main/java/com/strongkey/skce/pojos/LDAPUserMetadata.java:210-212 | the value currently held in `fidokeysenabled` |
| LdapUserMetadata.LDAPUserMetadata.SetFidokeysenabled | server/common/src/main/java/com/strongkey/skce/pojos/LDAPUserMetadata.java:214-216 | `fidokeysenabled` holds the new value; every other field is unchanged |
| LdapUserMetadata.LDAPUserMetadata.GetTwostepverification | server/common/src/main/java/com/strongkey/skce/pojos/LDAPUserMetadata.java:218-220 | the value currently held in `twostepverification` |
| LdapUserMetadata.LDAPUserMetadata.SetTwostepverification | server/common/src/main/java/com/strongkey/skce/pojos/LDAPUserMetadata.java:222-224 | `twostepverification` holds the new value; every other field is unchanged |
| LdapUserMetadata.LDAPUserMetadata.GetDid | server/common/src/main/java/com/strongkey/skce/pojos/LDAPUserMetadata.java:226-228 | the value currently held in `did` |
| LdapUserMetadata.LDAPUserMetadata.SetDid | server/common/src/main/java/com/strongkey/skce/pojos/LDAPUserMetadata.java:230-232 | `did` holds the new value; every other field is unchanged |

## Left out

- CryptoModule.getXMLSignatureSigningKey: a method signature without a body. There is no key loading, caching, expiry or zeroisation code to model.
- Configuration lookup (`applianceCommon.getApplianceConfigurationProperty`) is a call into code that is not shown. The three settings are parameters of the filter's constructor.
- The JAX-RS request and response contexts, and `IOException`. The request is reduced to its optional `Origin` value and the response to its header map.
- How `getHeaderString` joins several `Origin` values into one, and the case-insensitive matching of header names in a JAX-RS header map. Neither is visible here: header names are compared as exact strings.
- CorsFilter.CrossOriginResourceSharingFilter.constructor: takes the methods and headers settings as non-null strings. What `putSingle` does with a null value is up to the JAX-RS implementation.
- Java's regular-expression engine: only the one pattern `\s*,\s*` is modelled, by how it splits a string.
- LdapUserMetadata.Entries: returns `None` when a field is null, standing for the `NullPointerException` that stops `getJSONObject`: from the builder for a string field, and from unboxing the `Long` for `did`, which goes to `add(String, long)`. Neither the exception nor which field caused it is modelled.
- `getJSONString`, and the JSON text that `JsonObject.toString` produces. The JSON object is modelled as the ordered sequence of (key, value) members that were added.
- The text of the `LDAP_ATTR_KEY_*` key names. They are not part of this model and appear as the abstract constructors of `Key`.
- LdapUserMetadata.EntriesLookup: assumes the thirteen `LDAP_ATTR_KEY_*` strings are pairwise distinct, as distinct `Key` constructors are. If two were equal, the JSON builder would keep only one member for them and a lookup of that key would not give back both fields.
- Java serialisation (`Serializable`).
- Java strings are sequences of UTF-16 code units, while a Dafny `string` is a sequence of Unicode scalar values. Splitting at `,` and `\s`, and comparing with `equals`, behave the same on well-formed text, but an origin or LDAP attribute that holds a lone surrogate cannot be represented.
- JavaText.ParseLong: is not the whole of `Long.parseLong`. It has no range check and takes neither a leading `+` nor non-ASCII digits. It appears only as the inverse of `LongString`, and `did` is always in range because it is a 64-bit `Long`.
