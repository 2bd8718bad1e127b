/** The meta_data.json readers of BaseOpenStackService
    (cloudbaseinit/metadata/services/baseopenstackservice.py): instance id,
    host name, public SSH keys, the admin password and the client
    authentication certificates. `metaData` is the decoded meta_data.json
    (`JNull` when it is missing or empty, on which every `.get` fails). */
module OpenStackCredentials {
  import opened PyText
  import opened JsonValues
  import opened TypedEntries

  /** `get_instance_id`: `meta_data.get('uuid')`. */
  function InstanceId(metaData: Json): (r: Result<Json>)
    ensures r.Ok? <==> metaData.JObj?
    ensures r.Ok? ==> r.value == (if "uuid" in metaData.fields then metaData.fields["uuid"] else JNull)
  {
    Get(metaData, "uuid")
  }

  /** `get_host_name`: `meta_data.get('hostname')`. */
  function HostName(metaData: Json): (r: Result<Json>)
    ensures r.Ok? <==> metaData.JObj?
    ensures r.Ok? ==> r.value == (if "hostname" in metaData.fields then metaData.fields["hostname"] else JNull)
  {
    Get(metaData, "hostname")
  }

  /** `set(value.strip() for value in values)`: every value must be a string. */
  function StripAll(values: set<Json>): (r: Result<set<string>>)
    ensures r.Ok? <==> forall v :: v in values ==> v.JStr?
    ensures r.Fail? ==> r.fault == AttributeError("strip")
    ensures r.Ok? ==> forall key :: key in r.value <==>
      exists v :: v in values && v.JStr? && key == Strip(v.s, StrWhitespace)
  {
    if forall v :: v in values ==> v.JStr? then
      Ok(set v | v in values && v.JStr? :: Strip(v.s, StrWhitespace))
    else
      Fail(AttributeError("strip"))
  }

  /** The data of the "keys" entries of type `wanted`, when "keys" is truthy. */
  function KeysOfType(keys: Json, wanted: string): Result<seq<Json>> {
    if !Truthy(keys) then Ok([])
    else
      var items :- IterateDicts(keys, TypeError);
      SelectByType(items, wanted, "data")
  }

  // ---------------------------------------------------------------- public keys

  /** The values of a truthy "public_keys" dict (`dict.values()`). */
  function PublicKeyValues(dict: Json): Result<set<Json>> {
    if !Truthy(dict) then Ok({})
    else if dict.JObj? then Ok(dict.fields.Values)
    else Fail(AttributeError("values"))
  }

  /** `get_public_keys`. */
  function PublicKeys(metaData: Json): Result<set<string>> {
    var dict :- Get(metaData, "public_keys");
    var fromDict :- PublicKeyValues(dict);
    var ssh :- KeysOfType(GetField(metaData.fields, "keys"), "ssh");
    StripAll(fromDict + (set k | k in ssh))
  }

  /** The "keys" selection succeeds only on a list, and then collects the
      "data" of exactly the entries of type `wanted`. */
  lemma KeysOfTypeCharacterised(keys: Json, wanted: string)
    requires KeysOfType(keys, wanted).Ok?
    ensures forall v :: v in KeysOfType(keys, wanted).value <==>
      keys.JArr? && exists i :: 0 <= i < |keys.items| && IsEntryOfType(keys.items[i], wanted, v)
  {
    if Truthy(keys) {
      SelectByTypeCharacterised(keys.items, wanted, "data");
    }
  }

  /** `entry` is a dict whose "type" is `wanted` and whose "data" is `v`. */
  ghost predicate IsEntryOfType(entry: Json, wanted: string, v: Json) {
    entry.JObj? && GetField(entry.fields, "type") == JStr(wanted) && GetField(entry.fields, "data") == v
  }

  /** `v` is one of the values `get_public_keys` strips: a value of the
      "public_keys" dict, or the "data" of an "ssh" entry of "keys". */
  ghost predicate IsPublicKeySource(metaData: map<string, Json>, v: Json) {
    || (var dict := GetField(metaData, "public_keys"); dict.JObj? && v in dict.fields.Values)
    || (var keys := GetField(metaData, "keys");
        keys.JArr? && exists i :: 0 <= i < |keys.items| && IsEntryOfType(keys.items[i], "ssh", v))
  }

  /** The public keys are exactly the stripped values of "public_keys" and
      the stripped "data" of every "keys" entry of type "ssh"; being a set,
      they hold each key once. */
  lemma PublicKeysCharacterised(metaData: Json)
    requires PublicKeys(metaData).Ok?
    ensures metaData.JObj?
    ensures forall key :: key in PublicKeys(metaData).value <==>
      exists v :: IsPublicKeySource(metaData.fields, v) && v.JStr? && key == Strip(v.s, StrWhitespace)
  {
    var dict := GetField(metaData.fields, "public_keys");
    var keys := GetField(metaData.fields, "keys");
    var sources := PublicKeyValues(dict).value + (set k | k in KeysOfType(keys, "ssh").value);
    KeysOfTypeCharacterised(keys, "ssh");
    assert forall v :: v in sources <==> IsPublicKeySource(metaData.fields, v);
    assert PublicKeys(metaData) == StripAll(sources);
  }

  /** `get_public_keys` with its loop over "keys". */
  method GetPublicKeys(metaData: Json) returns (r: Result<set<string>>)
    ensures r == PublicKeys(metaData)
  {
    var dict := Get(metaData, "public_keys");
    if dict.Fail? {
      return Fail(dict.fault);
    }
    var publicKeys := PublicKeyValues(dict.value);
    if publicKeys.Fail? {
      return Fail(publicKeys.fault);
    }
    var keys := GetField(metaData.fields, "keys");
    var ssh: seq<Json> := [];
    if Truthy(keys) {
      var items := IterateDicts(keys, TypeError);
      if items.Fail? {
        return Fail(items.fault);
      }
      var selected := CollectByType(items.value, "ssh", "data");
      if selected.Fail? {
        return Fail(selected.fault);
      }
      ssh := selected.value;
    }
    r := StripAll(publicKeys.value + (set k | k in ssh));
  }

  // ---------------------------------------------------------------- admin password

  /** `get_admin_password`: "admin_pass" of the "meta" section when that
      section has it, else the top-level "admin_pass", else None. */
  function AdminPassword(metaData: Json): (r: Result<Json>)
    ensures r.Ok? ==> metaData.JObj?
    ensures metaData.JObj? ==>
      var meta := GetField(metaData.fields, "meta");
      && (meta.JObj? && "admin_pass" in meta.fields ==> r == Ok(meta.fields["admin_pass"]))
      && (meta.JObj? && "admin_pass" !in meta.fields ==> r == Ok(GetField(metaData.fields, "admin_pass")))
      && (!Truthy(meta) ==> r == Ok(GetField(metaData.fields, "admin_pass")))
  {
    var meta :- Get(metaData, "meta");
    var inMeta :- if Truthy(meta) then Contains(meta, "admin_pass") else Ok(false);
    if inMeta then Subscript(meta, "admin_pass")
    else if "admin_pass" in metaData.fields then Ok(metaData.fields["admin_pass"])
    else Ok(JNull)
  }

  // ---------------------------------------------------------------- certificates

  /** `"admin_cert%d" % idx` */
  function AdminCertKey(idx: nat): string {
    "admin_cert" + Decimal(idx)
  }

  lemma AdminCertKeyInjective(i: nat, j: nat)
    requires AdminCertKey(i) == AdminCertKey(j)
    ensures i == j
  {
    assert Decimal(i) == AdminCertKey(i)[10..] == AdminCertKey(j)[10..] == Decimal(j);
    DecimalInjective(i, j);
  }

  ghost predicate ChunksBefore(meta: map<string, Json>, idx: nat) {
    forall j :: 0 <= j < idx ==> AdminCertKey(j) in meta
  }

  /** A set holding the keys of chunks 0 .. idx-1 has at least `idx`
      elements, since different chunks have different keys. */
  lemma {:induction false} ChunkKeysBound(keys: set<string>, idx: nat)
    requires forall j :: 0 <= j < idx ==> AdminCertKey(j) in keys
    ensures idx <= |keys|
    decreases idx
  {
    if idx > 0 {
      var key := AdminCertKey(idx - 1);
      var rest := keys - {key};
      forall j | 0 <= j < idx - 1
        ensures AdminCertKey(j) in rest
      {
        if AdminCertKey(j) == key {
          AdminCertKeyInjective(j, idx - 1);
        }
      }
      ChunkKeysBound(rest, idx - 1);
      assert keys == rest + {key};
    }
  }

  /** A dict holds at most as many chunks as it has keys, so the chunk loop
      stops. */
  lemma ChunkIndexBound(meta: map<string, Json>, idx: nat)
    requires ChunksBefore(meta, idx)
    ensures idx <= |meta|
  {
    ChunkKeysBound(meta.Keys, idx);
  }

  /** The chunks `admin_cert<idx>`, `admin_cert<idx+1>`, ... in index order,
      up to the first missing or falsy one. */
  function ChunksFrom(meta: map<string, Json>, idx: nat): (r: seq<Json>)
    requires ChunksBefore(meta, idx)
    ensures forall j :: idx <= j < idx + |r| ==>
      AdminCertKey(j) in meta && meta[AdminCertKey(j)] == r[j - idx] && Truthy(r[j - idx])
    ensures !Truthy(GetField(meta, AdminCertKey(idx + |r|)))
    decreases |meta| - idx
  {
    var chunk := GetField(meta, AdminCertKey(idx));
    if !Truthy(chunk) then []
    else
      ChunkIndexBound(meta, idx + 1);
      [chunk] + ChunksFrom(meta, idx + 1)
  }

  /** `"".join(chunks)`: every chunk must be a string. */
  function Join(chunks: seq<Json>): (r: Result<string>)
    ensures r.Ok? <==> forall i :: 0 <= i < |chunks| ==> chunks[i].JStr?
    ensures r.Fail? ==> r.fault == TypeError
  {
    if chunks == [] then Ok("")
    else if !chunks[0].JStr? then Fail(TypeError)
    else
      var rest :- Join(chunks[1..]);
      Ok(chunks[0].s + rest)
  }

  function Concat(parts: seq<string>): string {
    if parts == [] then "" else parts[0] + Concat(parts[1..])
  }

  /** The certificate assembled from a truthy "meta" section, if any. */
  function MetaCert(meta: Json): Result<seq<Json>> {
    if !Truthy(meta) then Ok([])
    else if !meta.JObj? then Fail(AttributeError("get"))
    else
      var chunks := ChunksFrom(meta.fields, 0);
      if chunks == [] then Ok([])
      else
        var joined :- Join(chunks);
        Ok([JStr(joined)])
  }

  /** Chunks `admin_cert0` ... `admin_cert<n-1>` holding non-empty strings,
      followed by a missing or empty `admin_cert<n>`, give the one
      certificate that is their concatenation in index order; with no
      `admin_cert0` nothing is added. Chunks after a gap are never read. */
  lemma {:induction false} ChunkedCertJoined(meta: map<string, Json>, parts: seq<string>)
    requires forall i :: 0 <= i < |parts| ==>
      parts[i] != [] && AdminCertKey(i) in meta && meta[AdminCertKey(i)] == JStr(parts[i])
    requires !Truthy(GetField(meta, AdminCertKey(|parts|)))
    ensures MetaCert(JObj(meta)) == if parts == [] then Ok([]) else Ok([JStr(Concat(parts))])
  {
    ChunksAreParts(meta, parts, 0);
    JoinStrings(ChunksFrom(meta, 0), parts);
  }

  /** Under the hypotheses of `ChunkedCertJoined`, the chunks read from
      `admin_cert<idx>` on are the strings `parts[idx..]`. */
  lemma {:induction false} ChunksAreParts(meta: map<string, Json>, parts: seq<string>, idx: nat)
    requires forall i :: 0 <= i < |parts| ==>
      parts[i] != [] && AdminCertKey(i) in meta && meta[AdminCertKey(i)] == JStr(parts[i])
    requires !Truthy(GetField(meta, AdminCertKey(|parts|)))
    requires idx <= |parts|
    ensures ChunksBefore(meta, idx)
    ensures |ChunksFrom(meta, idx)| == |parts| - idx
    ensures forall i :: 0 <= i < |parts| - idx ==> ChunksFrom(meta, idx)[i] == JStr(parts[idx + i])
    decreases |parts| - idx
  {
    if idx < |parts| {
      ChunksAreParts(meta, parts, idx + 1);
    }
  }

  lemma {:induction false} JoinStrings(chunks: seq<Json>, parts: seq<string>)
    requires |chunks| == |parts|
    requires forall i :: 0 <= i < |parts| ==> chunks[i] == JStr(parts[i])
    ensures Join(chunks) == Ok(Concat(parts))
  {
    if parts != [] {
      JoinStrings(chunks[1..], parts[1..]);
    }
  }

  /** The PEM certificate in the user data, if the stripped user data starts
      with `pemHeader`. `userData` is None when the user data does not exist. */
  function UserDataCert(userData: Option<string>, pemHeader: string): seq<Json> {
    match userData
    case None => []
    case Some(data) =>
      var stripped := Strip(data, BytesWhitespace);
      if pemHeader <= stripped then [JStr(stripped)] else []
  }

  /** The certificates found in meta_data.json: the chunked one, then the
      data of the "x509" keys. */
  function MetaDataCerts(metaData: Json): Result<seq<Json>> {
    var meta :- Get(metaData, "meta");
    var fromMeta :- MetaCert(meta);
    var x509 :- KeysOfType(GetField(metaData.fields, "keys"), "x509");
    Ok(fromMeta + x509)
  }

  /** `get_client_auth_certs`. */
  function ClientAuthCerts(metaData: Json, userData: Option<string>, pemHeader: string): Result<set<string>> {
    var certs :- MetaDataCerts(metaData);
    var all := if certs == [] then UserDataCert(userData, pemHeader) else certs;
    StripAll(set c | c in all)
  }

  /** The user data is consulted only when meta_data.json yields no
      certificate; otherwise the result is the set of its stripped
      certificates, whatever the user data holds. */
  lemma UserDataOnlyAsFallback(metaData: Json, userData1: Option<string>, userData2: Option<string>, pemHeader: string)
    requires MetaDataCerts(metaData).Ok? && MetaDataCerts(metaData).value != []
    ensures ClientAuthCerts(metaData, userData1, pemHeader) == ClientAuthCerts(metaData, userData2, pemHeader)
    ensures ClientAuthCerts(metaData, userData1, pemHeader) == StripAll(set c | c in MetaDataCerts(metaData).value)
  {
  }

  /** Without certificates in meta_data.json, the result is the stripped user
      data when it starts with the PEM header, and nothing otherwise. */
  lemma UserDataFallback(metaData: Json, userData: Option<string>, pemHeader: string)
    requires MetaDataCerts(metaData) == Ok([])
    ensures userData.None? ==> ClientAuthCerts(metaData, userData, pemHeader) == Ok({})
    ensures userData.Some? ==>
      var stripped := Strip(userData.value, BytesWhitespace);
      ClientAuthCerts(metaData, userData, pemHeader)
        == Ok(if pemHeader <= stripped then {Strip(userData.value, StrWhitespace)} else {})
  {
    if userData.Some? {
      var stripped := Strip(userData.value, BytesWhitespace);
      var all := UserDataCert(userData, pemHeader);
      if pemHeader <= stripped {
        assert (set c | c in all) == {JStr(stripped)};
        assert StripAll({JStr(stripped)}).value == {Strip(stripped, StrWhitespace)};
        StripBytesThenText(userData.value);
      } else {
        assert (set c | c in all) == {};
        assert StripAll({}).value == {};
      }
    } else {
      assert (set c | c in UserDataCert(userData, pemHeader)) == {};
      assert StripAll({}).value == {};
    }
  }

  /** The chunk loop: read `admin_cert0`, `admin_cert1`, ... until a chunk
      is missing or empty. */
  method ReadCertChunks(meta: map<string, Json>) returns (certDataList: seq<Json>)
    ensures ChunksBefore(meta, 0) && certDataList == ChunksFrom(meta, 0)
  {
    certDataList := [];
    var idx: nat := 0;
    while true
      invariant ChunksBefore(meta, idx)
      invariant ChunksFrom(meta, 0) == certDataList + ChunksFrom(meta, idx)
      decreases |meta| - idx
    {
      var chunk := GetField(meta, AdminCertKey(idx));
      if !Truthy(chunk) {
        break;
      }
      assert ChunksBefore(meta, idx + 1) by {
        assert AdminCertKey(idx) in meta;
      }
      ChunkIndexBound(meta, idx + 1);
      assert ChunksFrom(meta, idx) == [chunk] + ChunksFrom(meta, idx + 1);
      certDataList := certDataList + [chunk];
      idx := idx + 1;
    }
  }

  /** The certificates of meta_data.json, gathered as `get_client_auth_certs`
      does before its user-data fallback. */
  method GatherMetaDataCerts(metaData: Json) returns (r: Result<seq<Json>>)
    ensures r == MetaDataCerts(metaData)
  {
    var meta := Get(metaData, "meta");
    if meta.Fail? {
      return Fail(meta.fault);
    }
    var certs: seq<Json> := [];
    if Truthy(meta.value) {
      if !meta.value.JObj? {
        return Fail(AttributeError("get"));
      }
      var certDataList := ReadCertChunks(meta.value.fields);
      if certDataList != [] {
        var joined := Join(certDataList);
        if joined.Fail? {
          return Fail(joined.fault);
        }
        certs := certs + [JStr(joined.value)];
        assert certs == [JStr(joined.value)];
      }
    }
    var keys := GetField(metaData.fields, "keys");
    var x509: seq<Json> := [];
    if Truthy(keys) {
      var items := IterateDicts(keys, TypeError);
      if items.Fail? {
        return Fail(items.fault);
      }
      var selected := CollectByType(items.value, "x509", "data");
      if selected.Fail? {
        return Fail(selected.fault);
      }
      x509 := selected.value;
    }
    return Ok(certs + x509);
  }

  /** `get_client_auth_certs`. */
  method GetClientAuthCerts(metaData: Json, userData: Option<string>, pemHeader: string) returns (r: Result<set<string>>)
    ensures r == ClientAuthCerts(metaData, userData, pemHeader)
  {
    var certs := GatherMetaDataCerts(metaData);
    if certs.Fail? {
      return Fail(certs.fault);
    }
    var all := certs.value;
    if all == [] {
      all := UserDataCert(userData, pemHeader);
    }
    r := StripAll(set c | c in all);
  }
}
