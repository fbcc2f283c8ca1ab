# views: configuration layer of a split-horizon DNS plugin

The `views` CoreDNS plugin answers DNS queries from different record sets depending on which client ACL
the querying address falls in. Its configuration layer (`setup.go`) does two things that this project
models and proves properties of:

- **Locator classification** (`schemaCheck`). A client or record locator string is an HTTP source when it
  starts with `http://` or `https://`. Otherwise it is a YAML file when it ends in `.yaml` or `.yml`.
  Anything else is an error. The prefix test runs first. Module `Sources`.
- **Snapshot building** (the second half of `Views.loadConfig`). From the decoded client ACLs
  (`{name, prefixes}`) and record sets (`{name, records[]}`), the load rebuilds two fields of the plugin:
  - `ClientACLs`: one ACL per raw client, in input order, keeping only the prefixes that parse.
  - `ClientZones`: a map from record-set name to `Zones{Names, Z}`. `Names` lists every normalized record
    name in input order. `Z` maps each name to the record last written under it. Record types are matched
    case-insensitively against A, AAAA, CNAME and TXT, which have the type codes 1, 28, 5 and 16 of
    section 3.2.2 of RFC 1035 and section 2.1 of RFC 3596. Any other type is stored with code 0.

  Module `Views`: the class `Views` with the method `LoadConfig`, whose loops update the two fields, and
  the non-mutating methods `ParsePrefixes` and `BuildZones` for the two inner loops. Each method is proved
  against pure specification functions (`ValidNets`, `ZonesOf`, `ZoneTable`), and the lemmas beside those
  functions state what the source promises.
- Both maps are built by overwriting entries in a loop. Module `LastWins` proves once that such a fold
  keeps, for each key, the value of the last write. The fold `Overwrite` is checked against an independent
  search from the end, `LastIndex`.

Two library calls are parameters of the model, and nothing is assumed about them:
`net.ParseCIDR` is `parseCIDR: string -> Option<IPNet>` (None where Go returns an error), and
`plugin.Host(...).Normalize()` is `normalize: string -> string`.

A failed fetch does not keep the previous tables. `loadConfig` only logs the error (setup.go:168-170,
178-180). It then rebuilds both tables from whatever raw lists were decoded, possibly none
(setup.go:182-236). `LoadConfig` therefore states the new tables purely in terms of its inputs, and no
contract mentions the previous state.

## Model

| member | source | states |
|---|---|---|
| `Sources.SchemaCheck` | setup.go:290-297 | HTTP exactly when the string starts with `http://` or `https://`. YAML exactly when it does not and ends in `.yaml` or `.yml`. Otherwise the error `unknown schema: <s>` |
| `Sources.HTTPSchemeWins` | setup.go:291-292 | any string `http://…` or `https://…` is HTTP, whatever its suffix |
| `Sources.YAMLSuffixSelectsFile` | setup.go:293-294 | a stem that is not an HTTP(S) URL plus `.yaml` or `.yml` is a YAML source: the suffix cannot make it a URL |
| `Sources.DotSuffixKeepsPrefixOut` | setup.go:291-294 | appending a suffix that starts with `.` cannot make a string start with a dot-free prefix such as `http://` or `https://` |
| `Sources.JSONSuffixRejected` | setup.go:293-296 | any locator that is not an HTTP(S) URL and ends in `.json` is rejected with the message `unknown schema: <s>` |
| `Sources.HTTPURLOfYAMLDocument` | setup.go:291-294 | `http://h/x.yaml` is HTTP, not YAML: the prefix test takes precedence |
| `Sources.JSONPathRejected` | setup.go:296 | `clients.json` is rejected with `unknown schema: clients.json` |
| `LastWins.Overwrite` | setup.go:232 | the map left by writing entries in order (as at setup.go:232 and 235): every key it holds was written, together with the value it holds |
| `LastWins.OverwriteIsLastWrite` | setup.go:232 | writing entries into a map in order leaves a key present exactly when some entry wrote it, with the value of the last such entry (as found by searching from the end) |
| `LastWins.OverwriteKeys` | setup.go:232 | the keys of the map are exactly the keys written |
| `LastWins.OverwriteLastWins` | setup.go:235 | an entry that no later entry overwrites is the value the map holds for its key |
| `Views.RRType` | setup.go:210-222 | the code is 1, 28, 5 or 16 exactly when the upper-cased type is A, AAAA, CNAME or TXT, and 0 exactly when it is none of them |
| `Views.RRTypeIgnoresCase` | setup.go:210 | two type strings that agree up to letter case get the same code |
| `Views.RRTypeA` | setup.go:210-215 | the code is A's exactly for `a` and `A` |
| `Views.RRTypeLowerCase` | setup.go:210-222 | `aaaa`, `cname` and `Txt` are recognised, and `mx` gets code 0 |
| `Views.ValidNets` | setup.go:185-194 | the in-order filter of the prefixes that parse. Its own contract is the bound: never more networks than prefixes. What it keeps and where is stated by `ValidNetsAppend`, `InvalidPrefixSkipped`, `ValidPrefixKept` and `ValidNetsMembers` |
| `Views.ValidNetsAppend` | setup.go:185-194 | the networks kept from two lists of prefixes joined together are those kept from each list, joined in order |
| `Views.InvalidPrefixSkipped` | setup.go:187-191 | a prefix that fails to parse is skipped without changing what is kept from the prefixes before and after it |
| `Views.ValidPrefixKept` | setup.go:187-193 | a prefix that parses contributes its network at its own position |
| `Views.ValidNetsMembers` | setup.go:185-194 | a network is kept exactly when some prefix of the client parses to it |
| `Views.AllInvalidGivesNoNets` | setup.go:185-199 | a client whose prefixes all fail to parse gets an empty network list |
| `Views.ParsePrefixes` | setup.go:185-194 | the inner loop returns exactly the in-order subsequence of prefixes that parse |
| `Views.ZoneOf` | setup.go:224-229 | the stored record has the raw name and value normalized and the TTL copied. Its type is always one of the codes 0, 1, 28, 5 and 16 |
| `Views.ZonesOf` | setup.go:204-233 | one record set after the load: one name per raw record, and every key of `Z` is among `Names` with its record stored under that very name |
| `Views.ZonesOfSnoc` | setup.go:231-232 | one more raw record appends its normalized name to `Names` and overwrites its entry in `Z` |
| `Views.ZonesKeysAreNames` | setup.go:204-232 | `Names` has one element per raw record, in order, duplicates kept. The keys of `Z` are exactly the elements of `Names`, and each record is stored under its own name |
| `Views.ZonesLastWins` | setup.go:224-232 | the record kept for a name comes from the last raw record whose name normalizes to it: name and value normalized, TTL copied, type mapped to its code |
| `Views.BuildZones` | setup.go:204-233 | the inner loop builds exactly the record set specified by `ZonesOf` |
| `Views.ZoneTable` | setup.go:202-236 | `ClientZones` after the load: every entry is a raw record-set name, holding the record set built whole from one raw set of that name |
| `Views.ZoneTableKeys` | setup.go:202-236 | `ClientZones` has a key for each record-set name in the input and no other |
| `Views.ZoneTableLastWins` | setup.go:203-235 | a later record set with the same name replaces an earlier one wholesale, with nothing merged |
| `Views.Views.constructor` | setup.go:86-89 | a freshly set-up plugin has empty tables |
| `Views.Views.LoadConfig` | setup.go:182-236 | one ACL per raw client, in order, with the same name and exactly the prefixes that parse. `ClientZones` is the table built from empty, whatever was there before |

## Left out

- Fetching the raw documents: the schema switch and the calls to `parseFromYAML` and `parseFromHTTP` (setup.go:161-180, 239-288). These are file and network I/O plus YAML/JSON decoding. Their output is the `rawClients` and `rawRecords` parameters of `LoadConfig`.
- Error logging: a fetch error and each invalid prefix are only logged (setup.go:168-170, 178-180, 189). The model has no logging.
- `setup`, plugin registration, the startup and shutdown hooks, and the walk over the Corefile tokens in `parse` (setup.go:45-134). These wire the plugin into CoreDNS.
- `reload` (setup.go:136-152): a goroutine driven by a ticker and stopped through a channel. The unsynchronized sharing of the two tables with the query path is not modelled.
- `net.ParseCIDR` and `plugin.Host.Normalize` are uninterpreted parameters. No property of them, such as idempotence or case-insensitivity, is assumed or proved.
- Go strings are byte strings; the model's strings are sequences of Unicode characters. `HasPrefix` and `HasSuffix` agree with Go's byte tests on valid UTF-8, since the patterns are ASCII. A locator or record field that is not valid UTF-8 has no counterpart in the model.
- `Views.ToUpper`: models `strings.ToUpper` on ASCII letters only. Non-ASCII letters keep their case in the model. The type codes are decided by comparison with four ASCII names, so only a non-ASCII letter that upper-cases to one of their letters would change a code.
- Go's distinction between a nil and an empty slice (a client with no valid prefix has a nil `CIDRNets`) is not kept: both are the empty sequence.
- `ClientACLs` holds pointers to `ClientACL` values in Go. Nothing mutates them after the load, so the model stores the values.
- The `Views` type, the `Zones` and `Zone` records and the schema constants are declared in files that are not part of this model. Their shapes are taken from their uses in setup.go. The schema constants' string values are not known, so the schema is the datatype `Schema`. Go's empty schema returned with an error is `Err(message)`.
- Client-to-view matching and query answering live in files that are not part of this model.
