/** The static champion catalog: its wire form keyed by string, its in-memory form
    re-keyed by each champion's numeric `key`, the `key` field's decimal encoding, and the
    image-asset spelling of a champion's name. The `info`, `image` and `stats` fields of a
    champion are not modelled (they never take part in a decision). */
module ChampionsResponse {
  import opened Results
  import opened Text

  /** `ChampionDTO` as held in memory: `key` is the numeric champion id. */
  datatype Champion = Champion(
    version: string,
    id: string,
    key: int,
    name: string,
    title: string,
    blurb: string,
    tags: seq<string>,
    partype: string)

  /** A champion as it stands in the JSON payload, where `key` is a string. */
  datatype WireChampion = WireChampion(
    version: string,
    id: string,
    key: string,
    name: string,
    title: string,
    blurb: string,
    tags: seq<string>,
    partype: string)

  /** `ChampionsResponse` in memory. `kind` is the payload's `type` field. */
  datatype Catalog = Catalog(kind: string, format: string, version: string, data: map<int, Champion>)

  /** The payload: `data` is a JSON object keyed by string. */
  datatype WireCatalog = WireCatalog(kind: string, format: string, version: string, data: map<string, WireChampion>)

  // ---------------------------------------------------------------------------
  // The `key` field

  /** `ChampionDTO.init(from:)`: the key string goes through `Int64(key)!`, which traps on
      anything that is not a 64-bit decimal integer. */
  function DecodeChampion(w: WireChampion): (r: Result<Champion>)
    ensures r.Ok? ==> IsInt64(r.value.key)
  {
    match ParseInt64(w.key)
    case None => Err(Trap)
    case Some(k) => Ok(Champion(w.version, w.id, k, w.name, w.title, w.blurb, w.tags, w.partype))
  }

  /** `ChampionDTO.encode(to:)`: the key is written as `"\(key)"`. */
  function EncodeChampion(c: Champion): WireChampion {
    WireChampion(c.version, c.id, Describe(c.key), c.name, c.title, c.blurb, c.tags, c.partype)
  }

  lemma ChampionRoundTrip(c: Champion)
    requires IsInt64(c.key)
    ensures DecodeChampion(EncodeChampion(c)) == Ok(c)
  {
    ParseDescribe(c.key);
  }

  /** A key string that is not a decimal integer makes decoding trap. */
  lemma NonNumericKeyTraps(w: WireChampion)
    requires ParseInt64(w.key).None?
    ensures DecodeChampion(w) == Err(Trap)
  {
  }

  // ---------------------------------------------------------------------------
  // Re-keying the catalog

  /** No two entries of the dictionary carry the same numeric key. */
  predicate UniqueKeys(m: map<string, Champion>) {
    forall s, t :: s in m && t in m && s != t ==> m[s].key != m[t].key
  }

  /** No two entries carry the same name. */
  predicate UniqueNames(m: map<int, Champion>) {
    forall i, j :: i in m && j in m && i != j ==> m[i].name != m[j].name
  }

  /** Every champion is stored under its own key. */
  predicate WellKeyed(data: map<int, Champion>) {
    forall k :: k in data ==> data[k].key == k
  }

  /** The values of `m`, each stored under its numeric key. */
  function ByKey(m: map<string, Champion>): (r: map<int, Champion>)
    requires UniqueKeys(m)
    ensures forall s :: s in m ==> m[s].key in r && r[m[s].key] == m[s]
    ensures forall k :: k in r ==> exists s :: s in m && m[s].key == k
  {
    map s | s in m :: m[s].key := m[s]
  }

  /** The values of `data`, each stored under its name. */
  function ByName(data: map<int, Champion>): (r: map<string, Champion>)
    requires UniqueNames(data)
    ensures forall k :: k in data ==> data[k].name in r && r[data[k].name] == data[k]
    ensures forall s :: s in r ==> exists k :: k in data && data[k].name == s
  {
    map k | k in data :: data[k].name := data[k]
  }

  /** `Dictionary(uniqueKeysWithValues: data.values.map { ($0.key, $0) })`: traps when two
      values share a key. */
  function ReKeyByKey(m: map<string, Champion>): Result<map<int, Champion>> {
    if UniqueKeys(m) then Ok(ByKey(m)) else Err(Trap)
  }

  /** `Dictionary(uniqueKeysWithValues: data.values.map { ($0.name, $0) })`: traps when two
      values share a name. */
  function ReKeyByName(data: map<int, Champion>): Result<map<string, Champion>> {
    if UniqueNames(data) then Ok(ByName(data)) else Err(Trap)
  }

  /** Every wire key string is a 64-bit integer. */
  predicate AllKeysParse(wire: map<string, WireChampion>) {
    forall s :: s in wire ==> ParseInt64(wire[s].key).Some?
  }

  /** The champions of the payload, each decoded, still under their string keys. */
  function DecodeValues(wire: map<string, WireChampion>): map<string, Champion>
    requires AllKeysParse(wire)
  {
    map s | s in wire :: DecodeChampion(wire[s]).value
  }

  /** The champions, each encoded, still under their string keys. */
  function EncodeValues(m: map<string, Champion>): map<string, WireChampion> {
    map s | s in m :: EncodeChampion(m[s])
  }

  /** `ChampionsResponse.init(from:)`. */
  function DecodeCatalog(w: WireCatalog): (r: Result<Catalog>)
    ensures r.Ok? ==> WellKeyed(r.value.data)
  {
    if !AllKeysParse(w.data) then Err(Trap)
    else
      var data :- ReKeyByKey(DecodeValues(w.data));
      Ok(Catalog(w.kind, w.format, w.version, data))
  }

  /** `ChampionsResponse.encode(to:)`. */
  function EncodeCatalog(c: Catalog): Result<WireCatalog> {
    var byName :- ReKeyByName(c.data);
    Ok(WireCatalog(c.kind, c.format, c.version, EncodeValues(byName)))
  }

  /** Decoding succeeds exactly when every key parses and no two champions share a key;
      then each champion of the payload is stored under its numeric key, the stored values
      are exactly the payload's values, and the payload's own string keys play no part. */
  lemma DecodeCatalogStoresByKey(w: WireCatalog)
    ensures DecodeCatalog(w).Ok? <==> AllKeysParse(w.data) && UniqueKeys(DecodeValues(w.data))
    ensures DecodeCatalog(w).Ok? ==>
      var data := DecodeCatalog(w).value.data;
      && (forall s :: s in w.data ==>
            var c := DecodeChampion(w.data[s]).value; c.key in data && data[c.key] == c)
      && data.Values == DecodeValues(w.data).Values
  {
    if DecodeCatalog(w).Ok? {
      var vals := DecodeValues(w.data);
      var data := DecodeCatalog(w).value.data;
      forall s | s in w.data
        ensures var c := DecodeChampion(w.data[s]).value; c.key in data && data[c.key] == c
      {
        assert vals[s] == DecodeChampion(w.data[s]).value;
      }
      forall c | c in data.Values ensures c in vals.Values {
        var k :| k in data && data[k] == c;
        var s :| s in vals && vals[s].key == k;
      }
      forall c | c in vals.Values ensures c in data.Values {
        var s :| s in vals && vals[s] == c;
        assert data[c.key] == c;
      }
    }
  }

  /** Two champions whose keys parse to the same number ("1" and "01", say) make decoding
      trap, whatever their string keys. */
  lemma DuplicateKeyTraps(w: WireCatalog, s: string, t: string)
    requires s in w.data && t in w.data && s != t
    requires ParseInt64(w.data[s].key) == ParseInt64(w.data[t].key)
    ensures DecodeCatalog(w) == Err(Trap)
  {
    if AllKeysParse(w.data) {
      var vals := DecodeValues(w.data);
      assert vals[s].key == vals[t].key;
    }
  }

  lemma DecodeEncodedValues(m: map<string, Champion>)
    requires forall s :: s in m ==> IsInt64(m[s].key)
    ensures AllKeysParse(EncodeValues(m)) && DecodeValues(EncodeValues(m)) == m
  {
    var wire := EncodeValues(m);
    forall s | s in wire ensures DecodeChampion(wire[s]) == Ok(m[s]) {
      ChampionRoundTrip(m[s]);
    }
  }

  /** In a well-keyed catalog with unique names, the champions held under their names
      still have unique keys. */
  lemma NameKeyedHasUniqueKeys(data: map<int, Champion>, byName: map<string, Champion>)
    requires WellKeyed(data)
    requires forall k :: k in data ==> data[k].name in byName && byName[data[k].name] == data[k]
    requires forall s :: s in byName ==> exists k :: k in data && data[k].name == s
    ensures UniqueKeys(byName)
  {
    forall s, t | s in byName && t in byName && s != t ensures byName[s].key != byName[t].key {
      var i :| i in data && data[i].name == s;
      var j :| j in data && data[j].name == t;
    }
  }

  /** Re-keying those champions by key gives back the catalog. */
  lemma NameKeyedBackToKeys(data: map<int, Champion>, byName: map<string, Champion>, back: map<int, Champion>)
    requires WellKeyed(data)
    requires forall k :: k in data ==> data[k].name in byName && byName[data[k].name] == data[k]
    requires forall s :: s in byName ==> exists k :: k in data && data[k].name == s
    requires forall s :: s in byName ==> byName[s].key in back && back[byName[s].key] == byName[s]
    requires forall k :: k in back ==> exists s :: s in byName && byName[s].key == k
    ensures back == data
  {
    forall k | k in data ensures k in back && back[k] == data[k] {
      assert data[k].name in byName;
    }
    forall k | k in back ensures k in data {
      var s :| s in byName && byName[s].key == k;
      var i :| i in data && data[i].name == s;
    }
  }

  lemma DecodeCatalogOk(w: WireCatalog, c: Catalog)
    requires w.kind == c.kind && w.format == c.format && w.version == c.version
    requires AllKeysParse(w.data) && ReKeyByKey(DecodeValues(w.data)) == Ok(c.data)
    ensures DecodeCatalog(w) == Ok(c)
  {
  }

  /** Encoding succeeds exactly when no two champions share a name; it then copies the
      header fields and writes every champion, encoded, under its name, and nothing else. */
  lemma EncodeCatalogWrites(c: Catalog)
    ensures EncodeCatalog(c).Ok? <==> UniqueNames(c.data)
    ensures EncodeCatalog(c).Ok? ==>
      var w := EncodeCatalog(c).value;
      && w.kind == c.kind && w.format == c.format && w.version == c.version
      && (forall k :: k in c.data ==> c.data[k].name in w.data && w.data[c.data[k].name] == EncodeChampion(c.data[k]))
      && (forall s :: s in w.data ==> exists k :: k in c.data && c.data[k].name == s)
  {
  }

  lemma DecodeNameKeyed(c: Catalog)
    requires WellKeyed(c.data) && UniqueNames(c.data)
    requires forall k :: k in c.data ==> IsInt64(k)
    ensures DecodeCatalog(WireCatalog(c.kind, c.format, c.version, EncodeValues(ByName(c.data)))) == Ok(c)
  {
    var byName := ByName(c.data);
    var wire := EncodeValues(byName);
    assert AllKeysParse(wire) && DecodeValues(wire) == byName by {
      forall s | s in byName ensures IsInt64(byName[s].key) {
        var k :| k in c.data && c.data[k].name == s;
      }
      DecodeEncodedValues(byName);
    }
    assert ReKeyByKey(byName) == Ok(c.data) by {
      NameKeyedHasUniqueKeys(c.data, byName);
      NameKeyedBackToKeys(c.data, byName, ByKey(byName));
    }
    DecodeCatalogOk(WireCatalog(c.kind, c.format, c.version, wire), c);
  }

  /** Encoding a decoded catalog (keys are 64-bit, champions sit under their own keys and
      names are unique) and decoding it again gives the same catalog. */
  lemma CatalogRoundTrip(c: Catalog)
    requires WellKeyed(c.data) && UniqueNames(c.data)
    requires forall k :: k in c.data ==> IsInt64(k)
    ensures EncodeCatalog(c).Ok? && DecodeCatalog(EncodeCatalog(c).value) == Ok(c)
  {
    EncodeCatalogWrites(c);
    DecodeNameKeyed(c);
  }

  // ---------------------------------------------------------------------------
  // The image-asset name

  /** The index of the first occurrence of `c` in `s`, as `firstIndex(of:)`. */
  function FirstIndexOf(s: string, c: char): (r: Option<nat>)
    ensures r.None? ==> c !in s
    ensures r.Some? ==> r.value < |s| && s[r.value] == c && c !in s[..r.value]
  {
    if s == [] then None
    else if s[0] == c then Some(0)
    else match FirstIndexOf(s[1..], c)
      case None => None
      case Some(i) => assert s[..i + 1] == [s[0]] + s[1..][..i]; Some(i + 1)
  }

  /** `replacingCharacters(in: lo ..< hi, with: t)`. */
  function ReplacingCharacters(s: string, lo: nat, hi: nat, t: string): string
    requires lo <= hi <= |s|
  {
    s[..lo] + t + s[hi..]
  }

  /** `ChampionDTO.imageURLFormattedName`: the character after the first apostrophe is
      lower-cased, then that apostrophe is removed. When the apostrophe is the last
      character, `name[nextIndex]` reads past the end and traps. */
  function ImageURLFormattedName(name: string): Result<string> {
    match FirstIndexOf(name, '\'')
    case None => Ok(name)
    case Some(index) =>
      var nextIndex := index + 1;
      if nextIndex >= |name| then Err(Trap)
      else
        var endIndex := nextIndex + 1;
        var lowered := ReplacingCharacters(name, nextIndex, endIndex, [AsciiLower(name[nextIndex])]);
        Ok(ReplacingCharacters(lowered, index, nextIndex, ""))
  }

  /** A name without an apostrophe is its own image name. */
  lemma FormattedNameWithoutApostrophe(name: string)
    requires '\'' !in name
    ensures ImageURLFormattedName(name) == Ok(name)
  {
  }

  /** With the first apostrophe at `i` and a character after it: the apostrophe is gone,
      the character after it is lower-cased, everything else (later apostrophes too) keeps
      its place, and the name is one character shorter. */
  lemma FormattedNameShape(name: string, i: nat)
    requires i + 1 < |name| && name[i] == '\'' && '\'' !in name[..i]
    ensures ImageURLFormattedName(name).Ok?
    ensures var r := ImageURLFormattedName(name).value;
      && |r| == |name| - 1
      && r[..i] == name[..i]
      && r[i] == AsciiLower(name[i + 1])
      && r[i + 1..] == name[i + 2..]
  {
  }

  /** The result holds one apostrophe fewer than the name; so a name with exactly one
      apostrophe (not at the end) gives a name with none. */
  lemma FormattedNameDropsOneApostrophe(name: string, i: nat)
    requires i + 1 < |name| && name[i] == '\'' && '\'' !in name[..i]
    ensures var r := ImageURLFormattedName(name).value;
      multiset(r)['\''] == multiset(name)['\''] - 1
  {
    FormattedNameShape(name, i);
    var r := ImageURLFormattedName(name).value;
    assert r == name[..i] + [AsciiLower(name[i + 1])] + name[i + 2..] by {
      assert r == r[..i] + [r[i]] + r[i + 1..];
    }
    assert name == name[..i] + [name[i]] + [name[i + 1]] + name[i + 2..];
    assert AsciiLower(name[i + 1]) == '\'' <==> name[i + 1] == '\'';
  }

  /** An apostrophe in last place makes the formatting trap. */
  lemma FormattedNameTrapsOnTrailingApostrophe(name: string)
    requires |name| > 0 && name[|name| - 1] == '\'' && '\'' !in name[..|name| - 1]
    ensures ImageURLFormattedName(name) == Err(Trap)
  {
  }

  lemma FormattedNameExample()
    ensures ImageURLFormattedName("Kai'Sa") == Ok("Kaisa")
    ensures ImageURLFormattedName("Ahri") == Ok("Ahri")
  {
    var name := "Kai'Sa";
    assert '\'' !in name[..3];
    FormattedNameShape(name, 3);
    var r := ImageURLFormattedName(name).value;
    assert r == r[..3] + [r[3]] + r[4..];
    assert r[..3] == "Kai" && r[4..] == "a" && r[3] == 's';
    assert r == "Kai" + "s" + "a" == "Kaisa";
  }
}
