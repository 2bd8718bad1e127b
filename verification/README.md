# cloudbase-init: retry decorator and OpenStack metadata interpreters

A Dafny model of two parts of cloudbase-init.

- **The retry decorator** (`cloudbaseinit/utils/retry.py`). `retry(tries, try_delay=1)` checks its configuration and returns a decorator. A decorated call invokes the operation until it returns, at most `tries` times. It sleeps `try_delay` seconds after every failing call except the last, and re-raises the last call's exception unchanged. The model (`retry.dfy`, module `Retry`) describes the operation as an oracle that gives the outcome of its i-th call. The sleeps are recorded as `Sleep` events in a trace, next to one `Attempt` event per call. The method `Retry.Call` is the `while ftries > 0` loop, proved equal to the recursive specification `Remaining`. Lemmas about `Remaining` state what the decorator promises: the number of calls and sleeps, the surfaced outcome, and that no sleep follows the last call.
- **The OpenStack metadata interpreters** of `BaseOpenStackService` (`cloudbaseinit/metadata/services/baseopenstackservice.py`):
  - the public SSH keys, the admin password and the client-authentication certificates read from the decoded `meta_data.json` (`credentials.dfy`);
  - the L2, L3 and L4 parsers of `network_data.json`, and the choice between that document and the legacy `network_config` entry (`network.dfy`).

  Decoded JSON is the datatype `JsonValues.Json`, and Python's `None` is `JNull`. The Python exceptions these interpreters raise on malformed metadata are a `Fault` (`KeyError(key)`, `TypeError`, `AttributeError(name)`), carried in a `Result`. Each `for` loop of the source is a method proved equal to a specification function. Lemmas about those functions state what the interpreters compute. The `for entry in entries: if entry["type"] == T: append(entry[F])` loop occurs three times in the source, and `entries.dfy` (module `TypedEntries`) holds it once. The Python string operations the interpreters use are in `text.dfy` (module `PyText`): `strip`, `upper`, `rsplit("/", 1)[-1]`, `"%d" % n` and `in`.

`retry` refuses a negative `try_delay` with the message "try_delay must be greater than 1". The model keeps that wording, although the check that raises it is `try_delay < 0`.

## Model

| member | source | states |
|---|---|---|
| Retry.MakeRetrier | cloudbaseinit/utils/retry.py:18-30 | `retry` succeeds exactly when tries > 0 and try_delay >= 0, and keeps both values. Otherwise it gives the ValueError of the first failing check, with the source's message. |
| Retry.Call | cloudbaseinit/utils/retry.py:32-43 | The decorated call's loop gives the outcome and the trace of calls and sleeps described by the specification `Remaining`, started with `tries` attempts left. |
| Retry.ScheduleCounts | cloudbaseinit/utils/retry.py:35-42 | A run of n calls has n calls and n-1 sleeps, each of try_delay. It starts and ends with a call, so nothing is slept after the last call. |
| Retry.FailuresBefore | cloudbaseinit/utils/retry.py:35-42 | The number k of calls that raise before the loop stops is below tries. Every one of them raised, and call k returns or is the last try. |
| Retry.RemainingStopsAt | cloudbaseinit/utils/retry.py:35-42 | Suppose k calls raise and the next call returns or is the last try. Then the loop makes exactly k+1 calls, with sleeps between them, and surfaces that call's outcome. |
| Retry.RemainingCharacterised | cloudbaseinit/utils/retry.py:35-42 | Every wrapped call stops after some n calls, with 1 <= n <= tries. All calls before the last one raised, and the last outcome is surfaced unchanged. It is an exception only if n == tries. The trace is the n-call schedule. |
| Retry.FirstCallReturns | cloudbaseinit/utils/retry.py:36-37 | An operation that returns at once is called once and nothing is slept. |
| Retry.ReturnsAfterFailures | cloudbaseinit/utils/retry.py:35-42 | An operation that raises k < tries times and then returns is called k+1 times with k sleeps, and its value is returned. |
| Retry.AlwaysRaises | cloudbaseinit/utils/retry.py:38-42 | An operation that always raises is called exactly tries times, with tries-1 sleeps. The error of the last call is re-raised unchanged. |
| Retry.OnlyMadeCallsMatter | cloudbaseinit/utils/retry.py:35-37 | A wrapped call depends only on the outcomes of the calls it actually makes. |
| PyText.LeadingSpaces | cloudbaseinit/metadata/services/baseopenstackservice.py:75 | Counts the leading whitespace: all counted characters are whitespace, and the next one is not. |
| PyText.TrailingSpaces | cloudbaseinit/metadata/services/baseopenstackservice.py:75 | Counts the trailing whitespace: all counted characters are whitespace, and the one before them is not. |
| PyText.Strip | cloudbaseinit/metadata/services/baseopenstackservice.py:75 | `strip()` returns the infix of s that follows the leading whitespace and is followed only by whitespace, and the result neither starts nor ends with whitespace. Python str whitespace and bytes whitespace are both modelled. |
| PyText.StripUnique | cloudbaseinit/metadata/services/baseopenstackservice.py:75 | The result of `strip()` is determined: any infix of s that is preceded and followed only by whitespace, and neither starts nor ends with it, is the stripped s. |
| PyText.BytesSpaceIsStrSpace | cloudbaseinit/metadata/services/baseopenstackservice.py:230-237 | Every character `bytes.strip()` removes is also removed by `str.strip()`. |
| PyText.StripBytesThenText | cloudbaseinit/metadata/services/baseopenstackservice.py:230-237 | Stripping the user data as bytes and the certificate again as text is the same as one text strip of the user data. |
| PyText.Upper | cloudbaseinit/metadata/services/baseopenstackservice.py:139 | `upper()` keeps the length, leaves no lower-case ASCII letter, and changes each character only to its capital. |
| PyText.LastSegment | cloudbaseinit/metadata/services/baseopenstackservice.py:89 | `rsplit("/", 1)[-1]` is a suffix without '/'. It is the whole string, or the character before it is '/'. |
| PyText.Decimal | cloudbaseinit/metadata/services/baseopenstackservice.py:212 | `"%d" % idx` is a non-empty string of decimal digits with no leading zero. |
| PyText.DecimalValue | cloudbaseinit/metadata/services/baseopenstackservice.py:212 | The digits `"%d" % idx` prints denote idx. |
| PyText.DecimalInjective | cloudbaseinit/metadata/services/baseopenstackservice.py:212 | Different indices print differently. |
| JsonValues.MapAll | cloudbaseinit/metadata/services/baseopenstackservice.py:110-141 | A per-element loop succeeds iff every element succeeds, and then gives each element's result in order. Otherwise it gives the fault of the first failing element. |
| JsonValues.MapAllStep | cloudbaseinit/metadata/services/baseopenstackservice.py:111-140 | One loop step either extends the collected results by one element's result, or ends the whole loop with that element's fault. |
| JsonValues.FirstIndex | cloudbaseinit/metadata/services/baseopenstackservice.py:159-160 | The first element of a filtering comprehension: the element it picks satisfies the filter, and no earlier element does. |
| TypedEntries.SelectedField | cloudbaseinit/metadata/services/baseopenstackservice.py:73-74 | One iteration succeeds iff the entry is a dict with "type", and also has the field when its type matches. It contributes that field exactly when the type matches. |
| TypedEntries.SelectByTypeCharacterised | cloudbaseinit/metadata/services/baseopenstackservice.py:72-74 | The loop succeeds iff every entry is a dict with "type", and every entry of the wanted type has the field. It then collects exactly the fields of the entries of the wanted type. |
| TypedEntries.SelectByTypeAppend | cloudbaseinit/metadata/services/baseopenstackservice.py:72-74 | The collected fields keep the order of the entries. |
| TypedEntries.SelectByTypeStopsAt | cloudbaseinit/metadata/services/baseopenstackservice.py:72-74 | The first entry that raises ends the loop with its fault, and later entries are not looked at. |
| TypedEntries.CollectByType | cloudbaseinit/metadata/services/baseopenstackservice.py:72-74 | The loop computes the selection specification, including its faults. |
| OpenStackNetwork.NormalisedLinkType | cloudbaseinit/metadata/services/baseopenstackservice.py:121-129 | A link type is always "phy", "vlan" or "bond". "phy", "vlan" and "bond" are kept; "ovs", "vif" and every other type become "phy". |
| OpenStackNetwork.ParseLink | cloudbaseinit/metadata/services/baseopenstackservice.py:112-140 | A missing "id" or "type" raises in that order. A truthy non-string MAC raises. Fields are copied only when truthy, and the MAC is upper-cased. Bond members and mode are set only for "bond" links. vlan_id stays None. |
| OpenStackNetwork.L2ConfigOneToOne | cloudbaseinit/metadata/services/baseopenstackservice.py:107-141 | The L2 configuration is None iff the document or "links" is falsy. Otherwise it has one parsed link per input link, in order. |
| OpenStackNetwork.ParseL2NetworkData | cloudbaseinit/metadata/services/baseopenstackservice.py:107-141 | The L2 loop computes the L2 specification, including its faults. |
| OpenStackNetwork.RouteGateway | cloudbaseinit/metadata/services/baseopenstackservice.py:166-170 | A non-dict route raises AttributeError. Without a default route (0.0.0.0/0.0.0.0 or ::/::) the gateway is None. Otherwise it is the first default route's truthy "gateway", and a missing "gateway" raises KeyError. |
| OpenStackNetwork.LinkMac | cloudbaseinit/metadata/services/baseopenstackservice.py:157-161 | The lookup raises iff there is no L2 configuration. Otherwise the first link with that name decides: its MAC when that is non-empty, else None. A MAC it returns is always such a first link's, and with no such link it returns None. |
| OpenStackNetwork.ParseNetwork | cloudbaseinit/metadata/services/baseopenstackservice.py:147-171 | A non-dict network raises TypeError. The keys network_id, id, type, link, ip_address and routes are read in that order, and the first missing one raises KeyError. A truthy link without an L2 configuration raises TypeError, and a failing route lookup raises its fault. Parsing succeeds exactly when none of these happens. "id" is set only for a truthy network_id, and "link_name" only for a truthy link. The type is kept only for the four L3 types. Truthy fields are copied, and the MAC and gateway come from LinkMac and RouteGateway. |
| OpenStackNetwork.L3ConfigOneToOne | cloudbaseinit/metadata/services/baseopenstackservice.py:143-172 | The L3 configuration is None iff the document or "networks" is falsy. Otherwise each network is parsed against the same L2 configuration, one to one and in order. |
| OpenStackNetwork.ParseL3NetworkData | cloudbaseinit/metadata/services/baseopenstackservice.py:143-172 | The L3 loop computes the L3 specification, including its faults. |
| OpenStackNetwork.L4DnsAddresses | cloudbaseinit/metadata/services/baseopenstackservice.py:174-181 | The L4 configuration is None iff the document or "services" is falsy. Otherwise it lists exactly the "address" of every "dns" service. |
| OpenStackNetwork.ParseL4NetworkData | cloudbaseinit/metadata/services/baseopenstackservice.py:174-181 | The L4 loop computes the L4 specification, including its faults. |
| OpenStackNetwork.ParseNetworkData | cloudbaseinit/metadata/services/baseopenstackservice.py:95-105 | A falsy document gives None. Otherwise the fault of L2, then L3, then L4, in that order, is raised. A successful parse holds the L2 configuration, the L3 configuration parsed against that same L2 result, and the L4 configuration. |
| OpenStackNetwork.NetworkDetails | cloudbaseinit/metadata/services/baseopenstackservice.py:77-89 | A truthy network_data.json is parsed. Otherwise: a falsy network_config or one without content_path gives None, and a string content_path names the legacy file by its last path segment. A meta_data.json that is not a dict raises. |
| OpenStackNetwork.NetworkDataTakesPrecedence | cloudbaseinit/metadata/services/baseopenstackservice.py:78-80 | With a truthy network_data.json, meta_data.json plays no part. |
| OpenStackNetwork.GetNetworkDetails | cloudbaseinit/metadata/services/baseopenstackservice.py:77-105 | The three parsing loops together compute the source selection. |
| OpenStackCredentials.InstanceId | cloudbaseinit/metadata/services/baseopenstackservice.py:57-58 | The lookup fails iff meta_data is not a dict. It then gives the "uuid" entry, or None when there is none. |
| OpenStackCredentials.HostName | cloudbaseinit/metadata/services/baseopenstackservice.py:60-61 | The lookup fails iff meta_data is not a dict. It then gives the "hostname" entry, or None when there is none. |
| OpenStackCredentials.StripAll | cloudbaseinit/metadata/services/baseopenstackservice.py:75 | Stripping the collected values succeeds iff all are strings; otherwise it raises AttributeError. The result is exactly the set of stripped values. |
| OpenStackCredentials.KeysOfTypeCharacterised | cloudbaseinit/metadata/services/baseopenstackservice.py:70-74 | A successful "keys" selection collects exactly the "data" of the entries of the wanted type. |
| OpenStackCredentials.PublicKeysCharacterised | cloudbaseinit/metadata/services/baseopenstackservice.py:63-75 | The public keys are exactly the stripped values of "public_keys" and the stripped "data" of every "ssh" entry of "keys", each key once. |
| OpenStackCredentials.GetPublicKeys | cloudbaseinit/metadata/services/baseopenstackservice.py:63-75 | The method with its "keys" loop computes the public-key specification, including its faults. |
| OpenStackCredentials.AdminPassword | cloudbaseinit/metadata/services/baseopenstackservice.py:183-194 | The password is "admin_pass" of a "meta" dict that has it. Otherwise, for a falsy "meta" or one without it, it is the top-level "admin_pass", or None. |
| OpenStackCredentials.AdminCertKeyInjective | cloudbaseinit/metadata/services/baseopenstackservice.py:212 | Different chunk indices give different "admin_cert<n>" keys. |
| OpenStackCredentials.ChunkKeysBound | cloudbaseinit/metadata/services/baseopenstackservice.py:209-216 | A key set holding the keys of chunks 0..idx-1 has at least idx keys. |
| OpenStackCredentials.ChunkIndexBound | cloudbaseinit/metadata/services/baseopenstackservice.py:209-216 | The chunk index never exceeds the size of "meta", so the `while True` loop stops. |
| OpenStackCredentials.ChunksFrom | cloudbaseinit/metadata/services/baseopenstackservice.py:209-216 | The chunks read are the truthy values of admin_cert<idx>, admin_cert<idx+1>, ..., in index order. The first chunk not read is missing or falsy. |
| OpenStackCredentials.Join | cloudbaseinit/metadata/services/baseopenstackservice.py:217-219 | Joining succeeds iff every chunk is a string; otherwise it raises TypeError. |
| OpenStackCredentials.ChunkedCertJoined | cloudbaseinit/metadata/services/baseopenstackservice.py:205-219 | String chunks admin_cert0..n-1 followed by a missing or empty admin_cert<n> give one certificate: their concatenation in index order. With no admin_cert0 they give none. |
| OpenStackCredentials.ChunksAreParts | cloudbaseinit/metadata/services/baseopenstackservice.py:209-216 | Under the same conditions, the chunks read from index idx on are exactly the given strings from idx on. |
| OpenStackCredentials.JoinStrings | cloudbaseinit/metadata/services/baseopenstackservice.py:219 | Joining string chunks gives their concatenation. |
| OpenStackCredentials.UserDataOnlyAsFallback | cloudbaseinit/metadata/services/baseopenstackservice.py:227-237 | When meta_data.json yields a certificate, the user data plays no part. The result is then the set of stripped meta_data certificates. |
| OpenStackCredentials.UserDataFallback | cloudbaseinit/metadata/services/baseopenstackservice.py:227-237 | Without meta_data certificates, the result is the user data stripped of text whitespace when its bytes-stripped form starts with the PEM header, and empty otherwise. Missing user data also gives an empty result. |
| OpenStackCredentials.ReadCertChunks | cloudbaseinit/metadata/services/baseopenstackservice.py:207-216 | The `while True` chunk loop reads exactly the chunk sequence `ChunksFrom(meta, 0)`. |
| OpenStackCredentials.GatherMetaDataCerts | cloudbaseinit/metadata/services/baseopenstackservice.py:202-225 | The chunk loop and the "x509" loop together compute the meta_data certificate list, including its faults. |
| OpenStackCredentials.GetClientAuthCerts | cloudbaseinit/metadata/services/baseopenstackservice.py:196-237 | The method computes the client-certificate specification, user-data fallback included. |

## Left out

- Sleeping: `time.sleep` is not performed. Each pause is a `Sleep(try_delay)` event in the call's trace.
- The decorated operation's arguments (`*args, **kwargs`) are not modelled. The operation is an oracle from call index to outcome, and arguments only pass through.
- Reading the metadata is not modelled: `_get_cache_data`, the path building with `posixpath` and `json.loads` (`_get_meta_data`, `_get_nework_data`, `get_content`, `get_user_data`). The decoded documents and the user data are parameters. A missing or empty document is `JNull`.
- The legacy network branch stops at the name of the interfaces file. Reading that file, `encoding.get_as_string` and `debiface.parse` are not part of this model.
- `x509constants.PEM_HEADER` is the parameter `pemHeader`. The user data is given as already decoded text, so `encoding.get_as_string` on the certificate is the identity here.
- Logging (`LOG.debug`) is left out.
- JSON numbers are integers. Floating-point values in metadata are not modelled.
- Python equality between values of different types (`True == 1`) is not modelled: values compare as the Json datatype does.
- Retry.MakeRetrier: `tries` is taken as an integer. A fractional `tries` (such as 1.5) is not modelled: the source's loop never reaches `ftries == 1` for it, so it sleeps after the last failure and returns None instead of re-raising.
- PyText.Upper: only ASCII letters are upper-cased, because Unicode case mapping is not modelled.
- Dict iteration order is not modelled. A loop over a non-empty dict or string raises the fault its body raises on the first string element, whichever element comes first.
- The result of `list(set(...))` is a Dafny `set`. The order of the returned list is not modelled.
- OpenStackNetwork.ParseNetwork: the dict at line 148 uses the builtin `id` as a key, so "id" exists only when "network_id" is truthy, and "link_name" only when "link" is truthy. Both are `Option` fields in the model.
- OpenStackNetwork.LinkMac: iterating a None L2 configuration raises TypeError in Python, and the model gives `Fail(TypeError)`.
