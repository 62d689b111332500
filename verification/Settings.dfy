/** The settings store: a write-through cache over a backing store in which some values are encrypted,
    with backup and restore. */
module Settings {

  /** QVariant: nothing, a byte array, or any other value. */
  datatype Variant = Invalid | ByteArray(data: string) | Other(value: string)

  const MAGIC := "EncData"
  const UUID_KEY := "Conf/installationUuid"
  const ENCRYPTED_KEY := "Servers/serversList"
  const FLAG_KEY := "Conf/encrypted"
  const TRUE := Other("true")

  /** Encryption key and initialisation vector, or none if the keychain has none. */
  datatype Keys = NoKeys | Keys(key: string, iv: string)

  /** The library functions involved, and whether encryption is required at all. */
  datatype Codec = Codec(
    encrypt: (string, Keys) -> string,
    decrypt: (string, Keys) -> string,
    serialize: Variant -> string,
    deserialize: string -> Variant,
    toJson: Variant -> string,
    fromJson: string -> Variant,
    toBool: Variant -> bool)

  ghost predicate Lawful(c: Codec) {
    && (forall x: string, k: Keys :: c.decrypt(c.encrypt(x, k), k) == x)
    && (forall v: Variant :: c.deserialize(c.serialize(v)) == v)
  }

  /** One store: its codec, its keys, whether encryption is required, what is on disk, what is cached. */
  datatype Store = Store(c: Codec, keys: Keys, required: bool, disk: map<string, Variant>, cache: map<string, Variant>)

  // ---------- encoding ----------

  predicate Tagged(v: Variant) { v.ByteArray? && MAGIC <= v.data }

  /** What a value on disk means. */
  function Decode(s: Store, raw: Variant): Variant {
    if !Tagged(raw) then raw
    else if s.keys.NoKeys? then Invalid
    else s.c.deserialize(s.c.decrypt(raw.data[|MAGIC|..], s.keys))
  }

  predicate Encrypted(s: Store, key: string) { s.required && key == ENCRYPTED_KEY }

  predicate Writable(s: Store, key: string) { Encrypted(s, key) ==> s.keys.Keys? }

  /** What setValue puts on disk. */
  function Encode(s: Store, key: string, v: Variant): Variant {
    if Encrypted(s, key) then ByteArray(MAGIC + s.c.encrypt(s.c.serialize(v), s.keys)) else v
  }

  /** An encrypted value, or a plain one that decoding leaves alone: one without the tag, or one whose
      tagged bytes happen to decrypt to themselves. */
  predicate Faithful(s: Store, key: string, v: Variant) { Encrypted(s, key) || Decode(s, v) == v }

  /** Writing and reading back is the identity exactly for these. */
  lemma DecodeInvertsEncode(s: Store, key: string, v: Variant)
    requires Lawful(s.c) && Writable(s, key)
    ensures Decode(s, Encode(s, key, v)) == v <==> Faithful(s, key, v)
  {
    if Encrypted(s, key) {
      var x := s.c.encrypt(s.c.serialize(v), s.keys);
      assert (MAGIC + x)[|MAGIC|..] == x;
    }
  }

  // ---------- operations ----------

  /** The meaning of a read, without any cache. */
  function Read(s: Store, key: string, fallback: Variant): Variant {
    if key in s.disk then Decode(s, s.disk[key]) else fallback
  }

  /** Every cached value is what the disk would decode to. */
  ghost predicate Coherent(s: Store) {
    forall key :: key in s.cache ==> key in s.disk && s.cache[key] == Decode(s, s.disk[key])
  }

  /** value(): its result and the cache it leaves. */
  function Get(s: Store, key: string, fallback: Variant): (Variant, Store) {
    if key in s.cache then (s.cache[key], s)
    else if key !in s.disk then (fallback, s)
    else if Tagged(s.disk[key]) && s.keys.NoKeys? then (Invalid, s)
    else (Decode(s, s.disk[key]), s.(cache := s.cache[key := Decode(s, s.disk[key])]))
  }

  function Set(s: Store, key: string, v: Variant): Store {
    if Writable(s, key) then s.(disk := s.disk[key := Encode(s, key, v)], cache := s.cache[key := v]) else s
  }

  /** QSettings::remove takes the key and everything below it. */
  predicate Below(group: string, key: string) { group == "" || group + "/" <= key }

  function Removed(s: Store, key: string): Store {
    s.(disk := map k | k in s.disk && k != key && !Below(key, k) :: s.disk[k], cache := s.cache - {key})
  }

  function Clear(s: Store): Store { s.(disk := map[], cache := map[]) }

  // ---------- coherence ----------

  lemma GetIsTransparent(s: Store, key: string, fallback: Variant)
    requires Coherent(s)
    ensures Get(s, key, fallback).0 == Read(s, key, fallback)
    ensures Coherent(Get(s, key, fallback).1)
  {
  }

  /** A plain write keeps the cache coherent if and only if decoding leaves its value alone. Without
      keys, the values it does not leave alone are exactly those that carry the tag. */
  lemma TaggedValueBreaksCoherence(s: Store, key: string, v: Variant)
    requires Coherent(s) && !Encrypted(s, key)
    ensures Coherent(Set(s, key, v)) <==> Decode(s, v) == v
    ensures s.keys.NoKeys? ==> (Coherent(Set(s, key, v)) <==> !Tagged(v))
  {
    var t := Set(s, key, v);
    assert key in t.cache;
    if Decode(s, v) == v {
      forall k | k in t.cache ensures k in t.disk && t.cache[k] == Decode(t, t.disk[k]) {
        if k != key { assert k in s.cache; }
      }
    }
  }

  /** A write keeps the cache coherent if and only if it is refused or its value reads back. */
  lemma SetKeepsCoherence(s: Store, key: string, v: Variant)
    requires Coherent(s) && Lawful(s.c)
    ensures Coherent(Set(s, key, v)) <==> !Writable(s, key) || Faithful(s, key, v)
    ensures Writable(s, key) && Faithful(s, key, v) ==> Read(Set(s, key, v), key, Invalid) == v
  {
    if Writable(s, key) {
      DecodeInvertsEncode(s, key, v);
      if !Encrypted(s, key) { TaggedValueBreaksCoherence(s, key, v); }
    }
  }

  /** Removing a key forgets the cached value of that key only: coherence survives if and only if
      nothing below the key is cached. */
  lemma RemoveKeepsCoherence(s: Store, key: string)
    requires Coherent(s)
    ensures Coherent(Removed(s, key)) <==> forall k :: k in s.cache && k != key ==> !Below(key, k)
  {
    var t := Removed(s, key);
    if forall k :: k in s.cache && k != key ==> !Below(key, k) {
      forall k | k in t.cache ensures k in t.disk && t.cache[k] == Decode(t, t.disk[k]) {
        assert k in s.cache && k != key;
      }
    } else {
      var k :| k in s.cache && k != key && Below(key, k);
      assert k in t.cache && k !in t.disk;
    }
  }

  // ---------- runs: the cache refines a store without one ----------

  datatype Request =
    | GetValue(key: string, fallback: Variant)
    | SetValue(key: string, v: Variant)
    | RemoveKey(key: string)
    | ClearAll

  function Apply(s: Store, r: Request): (seq<Variant>, Store) {
    match r
    case GetValue(key, fallback) => ([Get(s, key, fallback).0], Get(s, key, fallback).1)
    case SetValue(key, v) => ([], Set(s, key, v))
    case RemoveKey(key) => ([], Removed(s, key))
    case ClearAll => ([], Clear(s))
  }

  function Uncached(s: Store): Store { s.(cache := map[]) }

  /** The same request on a store that never caches. */
  function ApplyPlain(s: Store, r: Request): (seq<Variant>, Store) {
    match r
    case GetValue(key, fallback) => ([Read(s, key, fallback)], s)
    case SetValue(key, v) => ([], Uncached(Set(s, key, v)))
    case RemoveKey(key) => ([], Uncached(Removed(s, key)))
    case ClearAll => ([], Clear(s))
  }

  function Answers(s: Store, rs: seq<Request>): seq<Variant>
    decreases |rs|
  {
    if rs == [] then [] else Apply(s, rs[0]).0 + Answers(Apply(s, rs[0]).1, rs[1..])
  }

  function PlainAnswers(s: Store, rs: seq<Request>): seq<Variant>
    decreases |rs|
  {
    if rs == [] then [] else ApplyPlain(s, rs[0]).0 + PlainAnswers(ApplyPlain(s, rs[0]).1, rs[1..])
  }

  /** A request that stores only a value that reads back, and removes no key above a cached one. */
  ghost predicate Benign(s: Store, r: Request) {
    match r
    case GetValue(_, _) => true
    case SetValue(key, v) => !Writable(s, key) || Faithful(s, key, v)
    case RemoveKey(key) => forall k :: k in s.cache && k != key ==> !Below(key, k)
    case ClearAll => true
  }

  ghost predicate RunBenign(s: Store, rs: seq<Request>)
    decreases |rs|
  {
    rs != [] ==> Benign(s, rs[0]) && RunBenign(Apply(s, rs[0]).1, rs[1..])
  }

  /** On a coherent cache every request gives the answer of a store without one, and leaves a coherent cache
      if and only if it is benign. */
  lemma ApplyRefines(s: Store, r: Request)
    requires Coherent(s) && Lawful(s.c)
    ensures var (answer, t) := Apply(s, r);
      && ApplyPlain(Uncached(s), r) == (answer, Uncached(t))
      && (Coherent(t) <==> Benign(s, r))
      && t.c == s.c
  {
    match r
    case GetValue(key, fallback) => GetIsTransparent(s, key, fallback);
    case SetValue(key, v) => SetKeepsCoherence(s, key, v);
    case RemoveKey(key) => RemoveKeepsCoherence(s, key);
    case ClearAll =>
  }

  /** Over every run of requests that are benign where they are made, the cache cannot be noticed, for
      encrypted and plain keys alike. */
  lemma {:induction false} CacheIsTransparent(s: Store, rs: seq<Request>)
    requires Coherent(s) && Lawful(s.c) && RunBenign(s, rs)
    ensures Answers(s, rs) == PlainAnswers(Uncached(s), rs)
    decreases |rs|
  {
    if rs != [] {
      hide Apply, ApplyPlain, Coherent, Benign, Lawful;
      ApplyRefines(s, rs[0]);
      CacheIsTransparent(Apply(s, rs[0]).1, rs[1..]);
    }
  }

  /** Removing a group whose member is cached can be noticed. */
  lemma GroupRemovalIsNoticed(s: Store, v: Variant)
    requires s.cache == map[] && v != Invalid && !Tagged(v)
    ensures var rs := [SetValue("Conf/a", v), RemoveKey("Conf"), GetValue("Conf/a", Invalid)];
      Answers(s, rs) == [v] && PlainAnswers(Uncached(s), rs) == [Invalid]
  {
    hide Decode;
    var rs := [SetValue("Conf/a", v), RemoveKey("Conf"), GetValue("Conf/a", Invalid)];
    assert Decode(s, v) == v by { UntaggedStays(s, v); }
    var a := Set(s, "Conf/a", v);
    var b := Removed(a, "Conf");
    assert "Conf" + "/" <= "Conf/a";
    assert rs[1..][1..][1..] == [];
    assert Answers(s, rs) == Answers(a, rs[1..]) == Answers(b, rs[1..][1..]);
    var c := Uncached(Set(Uncached(s), "Conf/a", v));
    var d := Uncached(Removed(c, "Conf"));
    assert PlainAnswers(Uncached(s), rs) == PlainAnswers(c, rs[1..]) == PlainAnswers(d, rs[1..][1..]);
  }

  /** So can writing a plain value that decoding changes: the cache answers what was written, the disk
      what it decodes to. */
  lemma TaggedValueIsNoticed(s: Store, key: string, v: Variant)
    requires !Encrypted(s, key) && Decode(s, v) != v
    ensures var rs := [SetValue(key, v), GetValue(key, Invalid)];
      Answers(s, rs) == [v] && PlainAnswers(Uncached(s), rs) == [Decode(s, v)]
  {
    hide Decode;
    var rs := [SetValue(key, v), GetValue(key, Invalid)];
    assert rs[1..][1..] == [];
    assert Answers(s, rs) == Answers(Set(s, key, v), rs[1..]);
    var t := Uncached(Set(Uncached(s), key, v));
    assert PlainAnswers(Uncached(s), rs) == PlainAnswers(t, rs[1..]);
    assert Decode(t, v) == Decode(s, v) by { SameDecoding(s, t, v); }
  }

  lemma UntaggedStays(s: Store, v: Variant)
    requires !Tagged(v)
    ensures Decode(s, v) == v
  {
  }

  lemma SameDecoding(s: Store, t: Store, v: Variant)
    requires t.c == s.c && t.keys == s.keys
    ensures Decode(t, v) == Decode(s, v)
  {
  }

  // ---------- backup and restore ----------

  predicate Backed(key: string) { key != UUID_KEY && ("Conf/" <= key || "Servers/" <= key) }

  /** What value() answers for a key, cached or not. */
  function Seen(s: Store, key: string): Variant { Get(s, key, Invalid).0 }

  /** Reading has happened in between: same disk, the same answers for every key, no coherence lost. */
  ghost predicate OnlyRead(s: Store, t: Store) {
    && t == s.(cache := t.cache)
    && (forall key :: Seen(t, key) == Seen(s, key))
    && (Coherent(s) ==> Coherent(t))
  }

  lemma AskingOnlyReads(s: Store, t: Store, key: string)
    requires OnlyRead(s, t)
    ensures Get(t, key, Invalid).0 == Seen(s, key) && OnlyRead(s, Get(t, key, Invalid).1)
  {
    assert Seen(t, key) == Seen(s, key);
    forall other ensures Seen(Get(t, key, Invalid).1, other) == Seen(s, other) {
      assert Seen(t, other) == Seen(s, other);
    }
  }

  /** backupAppConfig, for the keys of `keys`. */
  function BackupOf(s: Store, keys: set<string>): map<string, string> {
    map key | key in keys && Backed(key) :: s.c.toJson(Seen(s, key))
  }

  function Backup(s: Store): map<string, string> { BackupOf(s, s.disk.Keys) }

  lemma BackupOneMore(s: Store, keys: set<string>, key: string)
    ensures BackupOf(s, keys + {key}) ==
            if Backed(key) then BackupOf(s, keys)[key := s.c.toJson(Seen(s, key))] else BackupOf(s, keys)
  {
    hide Seen, Backed;
  }

  /** The keys a restore writes. */
  predicate Restores(s: Store, cfg: map<string, string>, key: string) {
    key in cfg && key != UUID_KEY && Writable(s, key)
  }

  /** What a restore puts into the cache, and on disk. */
  function Values(s: Store, cfg: map<string, string>): map<string, Variant> {
    map key | key in cfg && Restores(s, cfg, key) :: s.c.fromJson(cfg[key])
  }

  function Encodings(s: Store, cfg: map<string, string>): map<string, Variant> {
    map key | key in cfg && Restores(s, cfg, key) :: Encode(s, key, s.c.fromJson(cfg[key]))
  }

  /** restoreAppConfig, whatever the order of the keys. */
  function Restore(s: Store, cfg: map<string, string>): Store {
    s.(disk := s.disk + Encodings(s, cfg), cache := s.cache + Values(s, cfg))
  }

  /** The value of a key after a round trip through JSON. */
  function Carried(source: Store, key: string): Variant { source.c.fromJson(source.c.toJson(Seen(source, key))) }

  /** The keys that a backup of `source` writes into `target`. */
  predicate Travels(source: Store, target: Store, key: string) {
    key in source.disk && Backed(key) && Writable(target, key)
  }

  /** A backup restored elsewhere, under other keys: every written key reads as the value that JSON carried
      if and only if that value is faithful there, and so as the source's own value if JSON keeps it; all
      other keys, the installation id among them, stay as they were; and the cache stays coherent if and only
      if every carried value is faithful. */
  lemma BackupRestores(source: Store, target: Store)
    requires Lawful(source.c) && target.c == source.c && Coherent(target)
    ensures var t := Restore(target, Backup(source));
      && (forall key :: Travels(source, target, key) ==>
            && key in t.disk
            && (Read(t, key, Invalid) == Carried(source, key) <==> Faithful(target, key, Carried(source, key)))
            && (Carried(source, key) == Seen(source, key) && Faithful(target, key, Seen(source, key)) ==>
                  Read(t, key, Invalid) == Seen(source, key)))
      && (forall key :: !Travels(source, target, key) ==>
            (key in t.disk <==> key in target.disk) && (key in t.disk ==> t.disk[key] == target.disk[key]))
      && (Coherent(t) <==>
            forall key :: Travels(source, target, key) ==> Faithful(target, key, Carried(source, key)))
  {
    hide Faithful, Carried, Travels;
    var t := Restore(target, Backup(source));
    forall key ensures Travels(source, target, key) ==>
                         && key in t.disk && key in t.cache && t.cache[key] == Carried(source, key)
                         && (Decode(t, t.disk[key]) == Carried(source, key) <==>
                               Faithful(target, key, Carried(source, key)))
    {
      if Travels(source, target, key) { RestoredValue(source, target, key); }
    }
    forall key | !Travels(source, target, key)
      ensures (key in t.disk <==> key in target.disk) && (key in t.disk ==> t.disk[key] == target.disk[key])
      ensures (key in t.cache <==> key in target.cache) && (key in t.cache ==> t.cache[key] == target.cache[key])
    {
      LeftAlone(source, target, key);
    }
    CoherentIff(source, target, t);
  }

  lemma RestoredValue(source: Store, target: Store, key: string)
    requires Lawful(source.c) && target.c == source.c && Travels(source, target, key)
    ensures var t := Restore(target, Backup(source));
            var v := Carried(source, key);
      && key in t.disk && key in t.cache && t.cache[key] == v
      && (Decode(t, t.disk[key]) == v <==> Faithful(target, key, v))
  {
    hide Seen, Faithful, Decode, Encode;
    var cfg := Backup(source);
    var t := Restore(target, cfg);
    assert Restores(target, cfg, key);
    assert t.disk[key] == Encode(target, key, Carried(source, key));
    SameDecoding(target, t, t.disk[key]);
    DecodeInvertsEncode(target, key, Carried(source, key));
  }

  lemma LeftAlone(source: Store, target: Store, key: string)
    requires !Travels(source, target, key)
    ensures var t := Restore(target, Backup(source));
      && (key in t.disk <==> key in target.disk) && (key in t.disk ==> t.disk[key] == target.disk[key])
      && (key in t.cache <==> key in target.cache) && (key in t.cache ==> t.cache[key] == target.cache[key])
  {
    hide Seen, Encode;
    assert !Restores(target, Backup(source), key);
  }

  /** Coherence of a store that agrees with a coherent one except for the keys that travelled. */
  lemma CoherentIff(source: Store, target: Store, t: Store)
    requires Coherent(target) && t.c == target.c && t.keys == target.keys
    requires forall key :: Travels(source, target, key) ==>
               && key in t.disk && key in t.cache && t.cache[key] == Carried(source, key)
               && (Decode(t, t.disk[key]) == Carried(source, key) <==> Faithful(target, key, Carried(source, key)))
    requires forall key :: !Travels(source, target, key) ==>
               && (key in t.disk <==> key in target.disk) && (key in t.disk ==> t.disk[key] == target.disk[key])
               && (key in t.cache <==> key in target.cache) && (key in t.cache ==> t.cache[key] == target.cache[key])
    ensures Coherent(t) <==>
            forall key :: Travels(source, target, key) ==> Faithful(target, key, Carried(source, key))
  {
    hide Travels, Carried, Faithful, Decode;
    forall key | key in t.disk ensures Decode(t, t.disk[key]) == Decode(target, t.disk[key]) {
      SameDecoding(target, t, t.disk[key]);
    }
    if forall key :: Travels(source, target, key) ==> Faithful(target, key, Carried(source, key)) {
      forall key | key in t.cache ensures key in t.disk && t.cache[key] == Decode(t, t.disk[key]) {
        if !Travels(source, target, key) { assert key in target.cache; }
      }
    }
    if Coherent(t) {
      forall key | Travels(source, target, key) ensures Faithful(target, key, Carried(source, key)) {
        assert key in t.cache;
      }
    }
  }

  /** The server list is stored as a byte array, which JSON carries as a text: it comes back as the text, also
      where it is encrypted under other keys. */
  lemma ServerListComesBackAsText(source: Store, target: Store, data: string)
    requires Lawful(source.c) && target.c == source.c && Coherent(target)
    requires Travels(source, target, ENCRYPTED_KEY) && Seen(source, ENCRYPTED_KEY) == ByteArray(data)
    requires source.c.fromJson(source.c.toJson(ByteArray(data))) == Other(data)
    ensures var t := Restore(target, Backup(source));
      Read(t, ENCRYPTED_KEY, Invalid) == Other(data) != Seen(source, ENCRYPTED_KEY)
  {
    hide Restore, Backup, Travels;
    BackupRestores(source, target);
  }

  /** What is in a backup, by the names of the keys. */
  lemma BackupContents(s: Store, key: string)
    ensures key in Backup(s) <==>
            key in s.disk && ("Conf/" <= key || "Servers/" <= key) && key != "Conf/installationUuid"
    ensures key in Backup(s) ==> Backup(s)[key] == s.c.toJson(Seen(s, key))
  {
    hide Seen;
  }

  /** What a restore writes, whatever the file says: never the installation id, never the server list when it
      would have to be encrypted without keys, and every other key of the file. */
  lemma RestoreWrites(s: Store, cfg: map<string, string>, key: string)
    ensures var t := Restore(s, cfg);
            var refused := key == "Servers/serversList" && s.required && s.keys.NoKeys?;
      if key in cfg && key != "Conf/installationUuid" && !refused then
        && key in t.disk && key in t.cache && t.cache[key] == s.c.fromJson(cfg[key])
        && t.disk[key] == OnDisk(s, key, s.c.fromJson(cfg[key]))
      else
        && (key in t.disk <==> key in s.disk) && (key in t.disk ==> t.disk[key] == s.disk[key])
        && (key in t.cache <==> key in s.cache) && (key in t.cache ==> t.cache[key] == s.cache[key])
  {
  }

  /** The form of a value on disk: the server list is tagged and encrypted where that is required. */
  function OnDisk(s: Store, key: string, v: Variant): Variant {
    if s.required && key == "Servers/serversList"
    then ByteArray("EncData" + s.c.encrypt(s.c.serialize(v), s.keys)) else v
  }

  /** The round trip of one setting, by the name of its key: what JSON keeps arrives. */
  lemma SettingSurvives(source: Store, target: Store, key: string)
    requires Lawful(source.c) && target.c == source.c && Coherent(target)
    requires key in source.disk && ("Conf/" <= key || "Servers/" <= key) && key != "Conf/installationUuid"
    requires source.c.fromJson(source.c.toJson(Seen(source, key))) == Seen(source, key)
    ensures var t := Restore(target, Backup(source));
            var v := Seen(source, key);
            var secret := target.required && key == "Servers/serversList";
      && (secret && target.keys.Keys? ==> Read(t, key, Invalid) == v && t.disk[key] == OnDisk(target, key, v))
      && (!secret && !Tagged(v) ==> Read(t, key, Invalid) == v && t.disk[key] == v)
  {
    hide Seen;
    BackupContents(source, key);
    RestoreWrites(target, Backup(source), key);
    if Writable(target, key) { RestoredValue(source, target, key); }
  }

  // ---------- single requests ----------

  /** A write: refused, encrypted or plain, and nothing else changes. */
  lemma WriteOutcome(s: Store, key: string, v: Variant)
    ensures var t := Set(s, key, v);
      if key == "Servers/serversList" && s.required && s.keys.NoKeys? then t == s
      else t == s.(disk := s.disk[key := OnDisk(s, key, v)], cache := s.cache[key := v])
  {
  }

  /** A removal takes the key and everything below it from the disk, the key alone from the cache. */
  lemma RemovalOutcome(s: Store, key: string, k: string)
    ensures var t := Removed(s, key);
      && (k in t.disk <==> k in s.disk && k != key && key != "" && !(key + "/" <= k))
      && (k in t.disk ==> t.disk[k] == s.disk[k])
      && (k in t.cache <==> k in s.cache && k != key) && (k in t.cache ==> t.cache[k] == s.cache[k])
  {
  }

  lemma ClearOutcome(s: Store, key: string, fallback: Variant)
    ensures Get(Clear(s), key, fallback) == (fallback, Clear(s)) && Clear(s).disk == map[] && Clear(s).cache == map[]
  {
  }

  /** A read: the cached value, the fallback for a missing key, nothing for a tagged value without keys, and
      otherwise the decoded value, which is cached. */
  lemma ReadOutcome(s: Store, key: string, fallback: Variant)
    ensures var (v, t) := Get(s, key, fallback);
      if key in s.cache then v == s.cache[key] && t == s
      else if key !in s.disk then v == fallback && t == s
      else
        var raw := s.disk[key];
        var tagged := raw.ByteArray? && "EncData" <= raw.data;
        if tagged && s.keys.NoKeys? then v == Invalid && t == s
        else
          && t == s.(cache := s.cache[key := v])
          && v == if tagged then s.c.deserialize(s.c.decrypt(raw.data[7..], s.keys)) else raw
  {
  }

  // ---------- migration ----------

  /** The one key to be encrypted, read and written again. */
  function Resaved(s: Store): Store {
    if ENCRYPTED_KEY in s.disk then Set(Get(s, ENCRYPTED_KEY, Invalid).1, ENCRYPTED_KEY, Seen(s, ENCRYPTED_KEY)) else s
  }

  predicate NeedsMigration(s: Store) {
    s.required && !s.c.toBool(if FLAG_KEY in s.disk then s.disk[FLAG_KEY] else Invalid)
  }

  /** What the constructor makes of the settings it finds. */
  function Migrated(s: Store): Store {
    if NeedsMigration(s) then Resaved(s).(disk := Resaved(s).disk[FLAG_KEY := TRUE]) else s
  }

  /** Migration changes the meaning of no key but the flag, whatever was encrypted before, and leaves a
      coherent cache. */
  lemma MigrationKeepsMeaning(s: Store, key: string, fallback: Variant)
    requires Lawful(s.c) && s.cache == map[]
    ensures key != FLAG_KEY ==> Read(Migrated(s), key, fallback) == Read(s, key, fallback)
    ensures Coherent(Migrated(s))
  {
    if NeedsMigration(s) && ENCRYPTED_KEY in s.disk && Writable(s, ENCRYPTED_KEY) {
      DecodeInvertsEncode(s, ENCRYPTED_KEY, Seen(s, ENCRYPTED_KEY));
    }
  }

  /** Settings are converted if and only if encryption is required and the flag is not set. */
  lemma MigrationHappens(s: Store)
    requires s.cache == map[]
    ensures var done := s.c.toBool(if "Conf/encrypted" in s.disk then s.disk["Conf/encrypted"] else Invalid);
            var t := Migrated(s);
      if !s.required || done then t == s
      else
        && "Conf/encrypted" in t.disk && t.disk["Conf/encrypted"] == TRUE
        && (forall key :: key != "Conf/encrypted" && key != "Servers/serversList" ==>
              (key in t.disk <==> key in s.disk) && (key in t.disk ==> t.disk[key] == s.disk[key]))
        && ("Servers/serversList" in t.disk <==> "Servers/serversList" in s.disk)
        && ("Servers/serversList" in s.disk && s.keys.Keys? ==>
              t.disk["Servers/serversList"] == OnDisk(s, "Servers/serversList", Seen(s, "Servers/serversList")))
  {
  }

  /** The flag is set even if there are no keys: the list is stored encrypted afterwards if and only if
      there are, or it was before. */
  lemma MigrationEncrypts(s: Store)
    requires s.cache == map[] && NeedsMigration(s) && ENCRYPTED_KEY in s.disk
    ensures Migrated(s).disk[FLAG_KEY] == TRUE
    ensures Tagged(Migrated(s).disk[ENCRYPTED_KEY]) <==> s.keys.Keys? || Tagged(s.disk[ENCRYPTED_KEY])
  {
    var v := Seen(s, ENCRYPTED_KEY);
    var x := s.c.encrypt(s.c.serialize(v), s.keys);
    assert MAGIC <= MAGIC + x;
  }

  // ---------- the object ----------

  class SecureQSettings {
    const c: Codec
    const keys: Keys
    const required: bool
    var settings: map<string, Variant>
    var cache: map<string, Variant>

    /** The snapshot the specification functions work on. */
    ghost function Model(): Store
      reads this
    {
      Store(c, keys, required, settings, cache)
    }

    /** Settings of a version that did not encrypt are converted. */
    constructor (c: Codec, keys: Keys, required: bool, settings: map<string, Variant>)
      ensures this.c == c && this.keys == keys && this.required == required
      ensures Model() == Migrated(Store(c, keys, required, settings, map[]))
      ensures Lawful(c) ==> Coherent(Model())
    {
      hide Get, Set, Coherent, Read;
      this.c, this.keys, this.required := c, keys, required;
      this.settings, cache := settings, map[];
      new;
      ghost var found := Model();
      if Lawful(c) { MigrationKeepsMeaning(found, FLAG_KEY, Invalid); }
      var encrypted := c.toBool(if FLAG_KEY in settings then settings[FLAG_KEY] else Invalid);
      if required && !encrypted {
        var todo := settings.Keys;
        while todo != {}
          invariant todo <= settings.Keys
          invariant Model() == if ENCRYPTED_KEY in todo then found else Resaved(found)
          decreases todo
        {
          var key :| key in todo;
          todo := todo - {key};
          if key == ENCRYPTED_KEY {
            var val := Value(key, Invalid);
            SetValue(key, val);
          }
        }
        this.settings := this.settings[FLAG_KEY := TRUE];
      }
    }

    method Value(key: string, fallback: Variant) returns (v: Variant)
      modifies this`cache
      ensures (v, Model()) == Get(old(Model()), key, fallback)
    {
      if key in cache {
        return cache[key];
      }
      if key !in settings {
        return fallback;
      }
      v := settings[key];
      if v.ByteArray? && MAGIC <= v.data {
        if keys.NoKeys? {
          return Invalid;
        }
        var decrypted := c.decrypt(v.data[|MAGIC|..], keys);
        v := c.deserialize(decrypted);
      }
      cache := cache[key := v];
    }

    method SetValue(key: string, v: Variant)
      modifies this
      ensures Model() == Set(old(Model()), key, v)
    {
      if required && key == ENCRYPTED_KEY {
        if keys.NoKeys? {
          return;
        }
        settings := settings[key := ByteArray(MAGIC + c.encrypt(c.serialize(v), keys))];
      } else {
        settings := settings[key := v];
      }
      cache := cache[key := v];
    }

    method Remove(key: string)
      modifies this
      ensures Model() == Removed(old(Model()), key)
    {
      settings := map k | k in settings && k != key && !Below(key, k) :: settings[k];
      cache := cache - {key};
    }

    method ClearSettings()
      modifies this
      ensures Model() == Clear(old(Model()))
    {
      settings := map[];
      cache := map[];
    }

    method BackupAppConfig() returns (cfg: map<string, string>)
      modifies this`cache
      ensures cfg == Backup(old(Model()))
      ensures OnlyRead(old(Model()), Model())
    {
      hide Seen, Get, Coherent, BackupOf, Backed;
      cfg := map[];
      var todo := settings.Keys;
      ghost var done: set<string> := {};
      NothingBacked(Model());
      while todo != {}
        invariant done + todo == settings.Keys && OnlyRead(old(Model()), Model())
        invariant cfg == BackupOf(old(Model()), done)
        decreases todo
      {
        hide OnlyRead;
        var key :| key in todo;
        todo := todo - {key};
        BackupOneMore(old(Model()), done, key);
        done := done + {key};
        if Backed(key) {
          AskingOnlyReads(old(Model()), Model(), key);
          var v := Value(key, Invalid);
          cfg := cfg[key := c.toJson(v)];
        }
      }
    }

    method RestoreAppConfig(cfg: map<string, string>) returns (ok: bool)
      modifies this
      ensures ok <==> cfg != map[]
      ensures Model() == Restore(old(Model()), cfg)
    {
      hide Restore, Set;
      if cfg == map[] {
        NothingRestored(Model(), cfg);
        return false;
      }
      var todo := cfg.Keys;
      ghost var done: map<string, string> := map[];
      NothingRestored(Model(), done);
      while todo != {}
        invariant todo <= cfg.Keys
        invariant done == map key | key in cfg && key !in todo :: cfg[key]
        invariant Model() == Restore(old(Model()), done)
        decreases todo
      {
        var key :| key in todo;
        todo := todo - {key};
        RestoreOneMore(old(Model()), done, key, cfg[key]);
        done := done[key := cfg[key]];
        if key == UUID_KEY {
          continue;
        }
        SetValue(key, c.fromJson(cfg[key]));
      }
      assert done == cfg;
      return true;
    }
  }

  lemma NothingBacked(s: Store)
    ensures BackupOf(s, {}) == map[] && OnlyRead(s, s)
  {
  }

  lemma NothingRestored(s: Store, cfg: map<string, string>)
    requires cfg == map[]
    ensures Restore(s, cfg) == s
  {
    assert Values(s, cfg) == map[] && Encodings(s, cfg) == map[];
  }

  lemma OneMoreValue(s: Store, cfg: map<string, string>, key: string, json: string)
    requires key !in cfg
    ensures var written := key != UUID_KEY && Writable(s, key);
      && Values(s, cfg[key := json]) ==
           (if written then Values(s, cfg)[key := s.c.fromJson(json)] else Values(s, cfg))
      && Encodings(s, cfg[key := json]) ==
           (if written then Encodings(s, cfg)[key := Encode(s, key, s.c.fromJson(json))] else Encodings(s, cfg))
  {
    hide Writable, Encode;
  }

  lemma OverlayThenWrite(m: map<string, Variant>, n: map<string, Variant>, key: string, v: Variant)
    ensures m + n[key := v] == (m + n)[key := v]
  {
  }

  lemma RestoreOneMore(s: Store, cfg: map<string, string>, key: string, json: string)
    requires key !in cfg
    ensures Restore(s, cfg[key := json]) ==
            if key == UUID_KEY then Restore(s, cfg) else Set(Restore(s, cfg), key, s.c.fromJson(json))
  {
    hide Values, Encodings;
    var v := s.c.fromJson(json);
    OneMoreValue(s, cfg, key, json);
    OverlayThenWrite(s.cache, Values(s, cfg), key, v);
    OverlayThenWrite(s.disk, Encodings(s, cfg), key, Encode(s, key, v));
  }
}
