/**
 Secrets of tenants: the text format of encrypted values, and the store, which keeps every secret in
 memory and in a file of its tenant, with a log of numbered versions.
 */
module Secrets {
  import opened Wrappers
  import opened Text

  type Byte = b: int | 0 <= b < 256

  // ---------------------------------------------------------------- the format

  const HEX := "0123456789abcdef"

  function Hex(bytes: seq<Byte>): (s: string)
    ensures |s| == 2 * |bytes|
  {
    if bytes == [] then "" else [HEX[bytes[0] / 16], HEX[bytes[0] % 16]] + Hex(bytes[1..])
  }

  function Digit(c: char): Option<nat> {
    if '0' <= c <= '9' then Some(c as int - '0' as int)
    else if 'a' <= c <= 'f' then Some(c as int - 'a' as int + 10)
    else if 'A' <= c <= 'F' then Some(c as int - 'A' as int + 10)
    else None
  }

  /** `Buffer.from(s, 'hex')`: stops at the first pair that is not hexadecimal. */
  function FromHex(s: string): seq<Byte>
    decreases |s|
  {
    if |s| < 2 || Digit(s[0]).None? || Digit(s[1]).None? then []
    else
      var b := 16 * Digit(s[0]).value + Digit(s[1]).value;
      (if b < 256 then [b as Byte] else []) + FromHex(s[2..])
  }

  lemma DigitOfHex(n: nat)
    requires n < 16
    ensures HEX[n] != ':' && Digit(HEX[n]) == Some(n)
  {
  }

  lemma HexHead(b: Byte, s: string)
    ensures var t := [HEX[b / 16], HEX[b % 16]] + s;
            FromHex(t) == [b] + FromHex(s) && t[0] != ':' && t[1] != ':'
  {
    DigitOfHex(b / 16);
    DigitOfHex(b % 16);
    var t := [HEX[b / 16], HEX[b % 16]] + s;
    assert t[2..] == s;
  }

  lemma {:induction false} HexRoundTrip(bytes: seq<Byte>)
    ensures FromHex(Hex(bytes)) == bytes && ':' !in Hex(bytes)
    decreases |bytes|
  {
    if bytes == [] {
    } else {
      HexHead(bytes[0], Hex(bytes[1..]));
      HexRoundTrip(bytes[1..]);
    }
  }

  datatype Sealed = Sealed(tag: seq<Byte>, cipherText: seq<Byte>)

  /** AES-256-GCM under the platform's key: sealing under a fresh iv, and opening, which may reject. */
  datatype Cipher = Cipher(seal: (seq<Byte>, string) -> Sealed, open: (seq<Byte>, Sealed) -> Option<string>)

  ghost predicate Inverts(c: Cipher) {
    forall iv, text :: c.open(iv, c.seal(iv, text)) == Some(text)
  }

  function Encrypt(c: Cipher, iv: seq<Byte>, text: string): string {
    if text == "" then ""
    else Hex(iv) + ":" + Hex(c.seal(iv, text).tag) + ":" + Hex(c.seal(iv, text).cipherText)
  }

  /** A text that is not three parts is taken for plain text; `None` is a rejected authentication. */
  function Decrypt(c: Cipher, s: string): Option<string> {
    if s == "" then Some("")
    else
      var parts := Split(s, ':');
      if |parts| != 3 then Some(s) else c.open(FromHex(parts[0]), Sealed(FromHex(parts[1]), FromHex(parts[2])))
  }

  /** Every text comes back, whatever characters it has and whatever the iv. */
  lemma EncryptionRoundTrip(c: Cipher, iv: seq<Byte>, text: string)
    requires Inverts(c)
    ensures Decrypt(c, Encrypt(c, iv, text)) == Some(text)
    ensures Encrypt(c, iv, text) == "" <==> text == ""
  {
    if text != "" {
      var x := c.seal(iv, text);
      HexRoundTrip(iv);
      HexRoundTrip(x.tag);
      HexRoundTrip(x.cipherText);
      var tail := Hex(x.tag) + ":" + Hex(x.cipherText);
      SplitFirst(Hex(iv), tail, ':');
      SplitFirst(Hex(x.tag), Hex(x.cipherText), ':');
      SplitUnbroken(Hex(x.cipherText), ':');
      assert Encrypt(c, iv, text) == Hex(iv) + ":" + tail;
    }
  }

  /** A text without colons, or with one, was never encrypted and is returned as it is. */
  lemma PlainTextPasses(c: Cipher, a: string, b: string)
    requires ':' !in a && ':' !in b
    ensures Decrypt(c, a) == Some(a) && Decrypt(c, a + ":" + b) == Some(a + ":" + b)
  {
    SplitUnbroken(a, ':');
    SplitUnbroken(b, ':');
    SplitFirst(a, b, ':');
  }

  /** An encrypted text is iv, tag and cipher text, in lower-case hexadecimal and separated by colons. */
  lemma EncryptedParts(c: Cipher, iv: seq<Byte>, text: string)
    requires text != ""
    ensures Split(Encrypt(c, iv, text), ':')
         == [Hex(iv), Hex(c.seal(iv, text).tag), Hex(c.seal(iv, text).cipherText)]
  {
    var x := c.seal(iv, text);
    HexRoundTrip(iv);
    HexRoundTrip(x.tag);
    HexRoundTrip(x.cipherText);
    var tail := Hex(x.tag) + ":" + Hex(x.cipherText);
    SplitFirst(Hex(iv), tail, ':');
    SplitFirst(Hex(x.tag), Hex(x.cipherText), ':');
    SplitUnbroken(Hex(x.cipherText), ':');
    assert Encrypt(c, iv, text) == Hex(iv) + ":" + tail;
  }

  /** The two digits of each byte, the high one first. */
  lemma {:induction false} HexDigits(bytes: seq<Byte>, i: nat)
    requires i < |bytes|
    ensures var high, low := bytes[i] as int / 16, bytes[i] as int % 16;
            && Hex(bytes)[2 * i] == (if high < 10 then '0' + high as char else 'a' + (high - 10) as char)
            && Hex(bytes)[2 * i + 1] == (if low < 10 then '0' + low as char else 'a' + (low - 10) as char)
    decreases i
  {
    if i == 0 {
    } else {
      HexDigits(bytes[1..], i - 1);
    }
  }

  // ---------------------------------------------------------------- the store

  predicate Contains(s: string, part: string)
    decreases |s|
  {
    part <= s || (s != "" && Contains(s[1..], part))
  }

  /** `validateSecret`. */
  predicate Accepts(name: string, value: string) {
    && value != ""
    && (Contains(name, "password") ==> |value| >= 8)
    && (Contains(name, "key") ==> |value| >= 16)
  }

  lemma {:induction false} ContainsIff(s: string, part: string)
    ensures Contains(s, part) <==> exists i :: 0 <= i <= |s| && part <= s[i..]
    decreases |s|
  {
    assert s[0..] == s;
    if part <= s {
    } else if s != "" {
      ContainsIff(s[1..], part);
      forall i | 0 < i <= |s| ensures s[i..] == s[1..][i - 1..] {
      }
      if i :| 0 <= i <= |s[1..]| && part <= s[1..][i..] {
        assert part <= s[i + 1..];
      }
      if i :| 0 <= i <= |s| && part <= s[i..] {
        assert part <= s[1..][i - 1..];
      }
    }
  }

  /** Validation wants a value, of 8 characters for a name with `password` in it and of 16 for one with `key`. */
  lemma AcceptsIff(name: string, value: string)
    ensures Accepts(name, value) <==>
              && value != ""
              && (|value| < 8 ==> forall i :: 0 <= i <= |name| ==> !("password" <= name[i..]))
              && (|value| < 16 ==> forall i :: 0 <= i <= |name| ==> !("key" <= name[i..]))
  {
    ContainsIff(name, "password");
    ContainsIff(name, "key");
  }

  /** The name of a secret within a scope; a missing and an empty scope id both mean `default`. */
  datatype Ref = Ref(tenant: string, scope: string, scopeId: Option<string>, name: string)

  function StoreKey(r: Ref): string {
    if r.scope == "tenant" then r.name
    else
      r.scope + ":" + (if r.scopeId.None? || r.scopeId.value == "" then "default" else r.scopeId.value) + ":" + r.name
  }

  function MemoryKey(tenant: string, key: string): string {
    tenant + ":" + key
  }

  datatype Version = Version(number: nat, value: string)

  /** Memory by full key; the secret and version files by tenant and store key. All values are encrypted. */
  datatype State = State(
    memory: map<string, string>,
    disk: map<string, map<string, string>>,
    versions: map<string, map<string, seq<Version>>>)

  const EMPTY := State(map[], map[], map[])

  function File<T>(files: map<string, map<string, T>>, tenant: string): map<string, T> {
    if tenant in files then files[tenant] else map[]
  }

  function LogOf(s: State, tenant: string, key: string): seq<Version> {
    if key in File(s.versions, tenant) then File(s.versions, tenant)[key] else []
  }

  function Appended(s: State, tenant: string, key: string, encrypted: string): map<string, map<string, seq<Version>>> {
    var log := LogOf(s, tenant, key);
    s.versions[tenant := File(s.versions, tenant)[key := log + [Version(|log| + 1, encrypted)]]]
  }

  /**
   What a save draws and meets: its two ivs, and whether it can write the secret file, the version
   file and the logs.
   */
  datatype Answers = Answers(iv: seq<Byte>, versionIv: seq<Byte>, store: bool, version: bool, log: bool)

  /** The property names that every object inherits; a dictionary seems to have them. */
  const INHERITED: set<string> := {
    "constructor", "__proto__", "hasOwnProperty", "isPrototypeOf", "propertyIsEnumerable", "toString",
    "toLocaleString", "valueOf", "__defineGetter__", "__defineSetter__", "__lookupGetter__", "__lookupSetter__"}

  /** Assigning this property of an object changes nothing that is written to a file. */
  const PROTO := "__proto__"

  predicate FileTakes(key: string, h: Answers) {
    h.store && key != PROTO
  }

  /** The version file is only reached after the secret file; an inherited name is no list to push to. */
  predicate LogTakes(key: string, h: Answers) {
    h.store && h.version && key !in INHERITED
  }

  function InFile(disk: map<string, map<string, string>>, tenant: string, key: string, encrypted: string, written: bool)
    : map<string, map<string, string>>
  {
    if !written then disk
    else disk[tenant := if key == PROTO then File(disk, tenant) else File(disk, tenant)[key := encrypted]]
  }

  /**
   A save sets memory, then the file, then adds a version, encrypting once for the store and once for
   the version. `None` is the validation error; any other failure leaves what was written before it.
   */
  function Saved(s: State, c: Cipher, r: Ref, value: string, h: Answers): Option<State> {
    if !Accepts(r.name, value) then None
    else
      var key := StoreKey(r);
      var encrypted := Encrypt(c, h.iv, value);
      Some(State(
        s.memory[MemoryKey(r.tenant, key) := encrypted],
        InFile(s.disk, r.tenant, key, encrypted, h.store),
        if LogTakes(key, h) then Appended(s, r.tenant, key, Encrypt(c, h.versionIv, value)) else s.versions))
  }

  /** Whether a save reports success. */
  predicate Reports(r: Ref, value: string, h: Answers) {
    Accepts(r.name, value) && LogTakes(StoreKey(r), h) && h.log
  }

  /** Memory forgets the secret first; the file keeps it when it cannot be written. */
  function Deleted(s: State, r: Ref, written: bool): State {
    var key := StoreKey(r);
    var file := File(s.disk, r.tenant);
    s.(memory := s.memory - {MemoryKey(r.tenant, key)},
       disk := if key in file && file[key] != "" && written then s.disk[r.tenant := file - {key}] else s.disk)
  }

  /** `None` when decryption throws. */
  function Fetched(s: State, c: Cipher, r: Ref): Option<Option<string>> {
    var full := MemoryKey(r.tenant, StoreKey(r));
    if full !in s.memory then Some(None)
    else
      var d := Decrypt(c, s.memory[full]);
      if d.None? then None else Some(d)
  }

  /** All versions decrypted; `None` when one of them throws. */
  function Plain(c: Cipher, log: seq<Version>): Option<seq<(nat, string)>>
    decreases |log|
  {
    if log == [] then Some([])
    else
      var front, v := Plain(c, log[..|log| - 1]), Decrypt(c, log[|log| - 1].value);
      if front.None? || v.None? then None else Some(front.value + [(log[|log| - 1].number, v.value)])
  }

  function FindVersion(vs: seq<(nat, string)>, n: nat): Option<string>
    decreases |vs|
  {
    if vs == [] then None else if vs[0].0 == n then Some(vs[0].1) else FindVersion(vs[1..], n)
  }

  /** `None` also for an inherited name once the tenant has a version file: what is found there is no list. */
  function Recalled(c: Cipher, versions: map<string, map<string, seq<Version>>>, tenant: string, key: string)
    : Option<seq<(nat, string)>>
  {
    if tenant in versions && key in INHERITED then None
    else Plain(c, if key in File(versions, tenant) then File(versions, tenant)[key] else [])
  }

  /** `None` for an unknown version or a refused value. */
  function RolledBack(s: State, c: Cipher, r: Ref, n: nat, h: Answers): Option<State> {
    var vs := Recalled(c, s.versions, r.tenant, StoreKey(r));
    if vs.None? then None
    else
      var v := FindVersion(vs.value, n);
      if v.None? then None else Saved(s, c, r, v.value, h)
  }

  /** A listing of the secret files: the tenants with their entries, in the order they are read. */
  type Listing = seq<(string, seq<(string, string)>)>

  function Load(memory: map<string, string>, tenant: string, entries: seq<(string, string)>): map<string, string>
    decreases |entries|
  {
    if entries == [] then memory
    else
      var e := entries[|entries| - 1];
      Load(memory, tenant, entries[..|entries| - 1])[MemoryKey(tenant, e.0) := e.1]
  }

  function LoadAll(memory: map<string, string>, files: Listing): map<string, string>
    decreases |files|
  {
    if files == [] then memory
    else Load(LoadAll(memory, files[..|files| - 1]), files[|files| - 1].0, files[|files| - 1].1)
  }

  datatype Event =
    | Save(r: Ref, value: string, h: Answers)
    | Delete(r: Ref, written: bool)
    | Rollback(r: Ref, version: nat, h: Answers)
    | Reload(files: Listing)
    | Restart(files: Listing)

  /** A refused save throws and changes nothing. A restart begins with an empty memory. */
  function Step(s: State, c: Cipher, e: Event): State {
    match e
    case Save(r, value, h) => Saved(s, c, r, value, h).GetOr(s)
    case Delete(r, written) => Deleted(s, r, written)
    case Rollback(r, n, h) => RolledBack(s, c, r, n, h).GetOr(s)
    case Reload(files) => s.(memory := LoadAll(s.memory, files))
    case Restart(files) => s.(memory := LoadAll(map[], files))
  }

  function Run(s: State, c: Cipher, events: seq<Event>): State
    decreases |events|
  {
    if events == [] then s else Run(Step(s, c, events[0]), c, events[1..])
  }

  // ---------------------------------------------------------------- the objects

  class SecretProvider {
    const cipher: Cipher
    var localStore: map<string, string>

    constructor (cipher: Cipher)
      ensures this.cipher == cipher && localStore == map[]
    {
      this.cipher := cipher;
      localStore := map[];
    }

    /** The outer option is absent when decryption throws, the inner one stands for null. */
    method GetSecret(key: string) returns (r: Option<Option<string>>)
      ensures key !in localStore ==> r == Some(None)
      ensures key in localStore ==>
                r == (if Decrypt(cipher, localStore[key]).None? then None else Some(Decrypt(cipher, localStore[key])))
    {
      if key !in localStore {
        return Some(None);
      }
      var secret := Decrypt(cipher, localStore[key]);
      r := if secret.None? then None else Some(secret);
    }

    method SetSecret(key: string, value: string, iv: seq<Byte>)
      modifies this
      ensures localStore == old(localStore)[key := Encrypt(cipher, iv, value)]
    {
      localStore := localStore[key := Encrypt(cipher, iv, value)];
    }
  }

  class SecretVersionManager {
    const cipher: Cipher
    var history: map<string, map<string, seq<Version>>>

    constructor (cipher: Cipher)
      ensures this.cipher == cipher && history == map[]
    {
      this.cipher := cipher;
      history := map[];
    }

    function Log(tenant: string, key: string): seq<Version>
      reads this
    {
      if key in File(history, tenant) then File(history, tenant)[key] else []
    }

    /** False when the file cannot be written, or when the key names an inherited property, which has no `push`. */
    method SaveVersion(tenant: string, key: string, value: string, iv: seq<Byte>, works: bool) returns (ok: bool)
      modifies this
      ensures ok == (works && key !in INHERITED)
      ensures history == if ok then Appended(State(map[], map[], old(history)), tenant, key, Encrypt(cipher, iv, value))
                         else old(history)
    {
      ok := works && key !in INHERITED;
      if !ok {
        return;
      }
      var file := if tenant in history then history[tenant] else map[];
      var log := if key in file then file[key] else [];
      history := history[tenant := file[key := log + [Version(|log| + 1, Encrypt(cipher, iv, value))]]];
    }

    /** `None` when it throws: for an inherited name, or when some version does not decrypt. */
    method GetVersions(tenant: string, key: string) returns (vs: Option<seq<(nat, string)>>)
      ensures vs == Recalled(cipher, history, tenant, key)
    {
      if tenant !in history {
        return Some([]);
      }
      if key in INHERITED {
        return None;
      }
      var log := Log(tenant, key);
      var plain: seq<(nat, string)> := [];
      var i := 0;
      while i < |log|
        invariant 0 <= i <= |log|
        invariant Plain(cipher, log[..i]) == Some(plain)
      {
        assert log[..i + 1][..i] == log[..i];
        var value := Decrypt(cipher, log[i].value);
        if value.None? {
          PlainFailsEarly(cipher, log, i + 1);
          return None;
        }
        plain := plain + [(log[i].number, value.value)];
        i := i + 1;
      }
      assert log[..i] == log;
      vs := Some(plain);
    }

    /** `None` when the version does not exist. */
    method Rollback(tenant: string, key: string, version: nat) returns (value: Option<string>)
      ensures var vs := Recalled(cipher, history, tenant, key);
              value == if vs.None? then None else FindVersion(vs.value, version)
    {
      var vs := GetVersions(tenant, key);
      if vs.None? {
        return None;
      }
      var i := 0;
      while i < |vs.value| && vs.value[i].0 != version
        invariant 0 <= i <= |vs.value|
        invariant FindVersion(vs.value[i..], version) == FindVersion(vs.value, version)
      {
        assert vs.value[i..][1..] == vs.value[i + 1..];
        i := i + 1;
      }
      value := if i < |vs.value| then Some(vs.value[i].1) else None;
    }
  }

  lemma {:induction false} PlainFailsEarly(c: Cipher, log: seq<Version>, n: nat)
    requires n <= |log| && Plain(c, log[..n]).None?
    ensures Plain(c, log).None?
    decreases |log| - n
  {
    if n == |log| {
      assert log[..n] == log;
    } else {
      assert log[..n + 1][..n] == log[..n];
      PlainFailsEarly(c, log, n + 1);
    }
  }

  class SecretManager {
    const provider: SecretProvider
    const versions: SecretVersionManager
    var store: map<string, map<string, string>>

    function View(): State
      reads this, provider, versions
    {
      State(provider.localStore, store, versions.history)
    }

    /** A manager over the files of an earlier one, read on the way. */
    constructor (versions: SecretVersionManager, store: map<string, map<string, string>>, files: Listing)
      ensures this.versions == versions && fresh(provider) && provider.cipher == versions.cipher
      ensures View() == Step(State(map[], store, versions.history), versions.cipher, Restart(files))
    {
      this.provider := new SecretProvider(versions.cipher);
      this.versions := versions;
      this.store := store;
      new;
      ReloadFiles(files);
    }

    method ReloadFiles(files: Listing)
      modifies provider
      ensures View() == Step(old(View()), provider.cipher, Reload(files))
    {
      var i := 0;
      while i < |files|
        invariant 0 <= i <= |files|
        invariant provider.localStore == LoadAll(old(provider.localStore), files[..i])
      {
        var tenant, entries := files[i].0, files[i].1;
        ghost var before := provider.localStore;
        var j := 0;
        while j < |entries|
          invariant 0 <= j <= |entries|
          invariant provider.localStore == Load(before, tenant, entries[..j])
        {
          assert entries[..j + 1][..j] == entries[..j];
          provider.localStore := provider.localStore[MemoryKey(tenant, entries[j].0) := entries[j].1];
          j := j + 1;
        }
        assert entries[..j] == entries && files[..i + 1][..i] == files[..i];
        i := i + 1;
      }
      assert files[..i] == files;
    }

    /** False when validation throws, with nothing changed, or when a write throws, after the ones before it. */
    method SaveSecret(r: Ref, value: string, h: Answers) returns (ok: bool)
      requires provider.cipher == versions.cipher
      modifies this, provider, versions
      ensures ok == Reports(r, value, h)
      ensures View() == Step(old(View()), provider.cipher, Save(r, value, h))
    {
      if !Accepts(r.name, value) {
        return false;
      }
      var key := StoreKey(r);
      provider.SetSecret(MemoryKey(r.tenant, key), value, h.iv);
      if !h.store {
        return false;
      }
      ok := WriteFiles(r.tenant, key, value, provider.localStore[MemoryKey(r.tenant, key)], h);
      ok := ok && h.log;
    }

    /** The secret file, then the version file. */
    method WriteFiles(tenant: string, key: string, value: string, encrypted: string, h: Answers) returns (ok: bool)
      requires h.store
      modifies this`store, versions
      ensures ok == LogTakes(key, h) && store == InFile(old(store), tenant, key, encrypted, true)
      ensures versions.history
           == if ok then old(Appended(View(), tenant, key, Encrypt(versions.cipher, h.versionIv, value)))
              else old(versions.history)
    {
      WriteEntry(tenant, key, encrypted);
      ok := versions.SaveVersion(tenant, key, value, h.versionIv, h.version);
    }

    /** Reads the file of the tenant, sets one key and writes the file back. */
    method WriteEntry(tenant: string, key: string, encrypted: string)
      modifies this`store
      ensures store == InFile(old(store), tenant, key, encrypted, true)
    {
      var file := if tenant in store then store[tenant] else map[];
      if key != PROTO {
        file := file[key := encrypted];
      }
      store := store[tenant := file];
    }

    method GetSecret(r: Ref) returns (secret: Option<Option<string>>)
      ensures secret == Fetched(View(), provider.cipher, r)
    {
      secret := provider.GetSecret(MemoryKey(r.tenant, StoreKey(r)));
    }

    method DeleteSecret(r: Ref, written: bool)
      modifies this, provider
      ensures View() == Step(old(View()), provider.cipher, Delete(r, written))
    {
      var key := StoreKey(r);
      provider.localStore := provider.localStore - {MemoryKey(r.tenant, key)};
      if r.tenant in store {
        var file := store[r.tenant];
        if key in file && file[key] != "" && written {
          store := store[r.tenant := file - {key}];
        }
      }
    }

    method RollbackSecret(r: Ref, version: nat, h: Answers) returns (ok: bool)
      requires provider.cipher == versions.cipher
      modifies this, provider, versions
      ensures ok ==> RolledBack(old(View()), provider.cipher, r, version, h).Some?
      ensures RolledBack(old(View()), provider.cipher, r, version, h).Some? ==>
                ok == (LogTakes(StoreKey(r), h) && h.log)
      ensures View() == Step(old(View()), provider.cipher, Rollback(r, version, h))
    {
      var value := versions.Rollback(r.tenant, StoreKey(r), version);
      if value.None? {
        return false;
      }
      ok := SaveSecret(r, value.value, h);
    }
  }

  // ---------------------------------------------------------------- the vault: what the store is meant to be

  /** A secret by what it is: its tenant, the scope and scope id that own it unless the tenant does, its name. */
  datatype Slot = Slot(tenant: string, owner: Option<(string, string)>, name: string)

  function SlotOf(r: Ref): Slot {
    Slot(r.tenant,
         if r.scope == "tenant" then None
         else Some((r.scope, if r.scopeId.None? || r.scopeId.value == "" then "default" else r.scopeId.value)),
         r.name)
  }

  function Parts(slot: Slot): (parts: seq<string>)
    ensures |parts| >= 2
  {
    match slot.owner
    case None => [slot.tenant, slot.name]
    case Some(o) => [slot.tenant, o.0, o.1, slot.name]
  }

  function KeyOf(slot: Slot): string {
    Join(Parts(slot)[1..], ':')
  }

  ghost predicate ColonFree(slot: Slot) {
    forall i :: 0 <= i < |Parts(slot)| ==> ':' !in Parts(slot)[i]
  }

  lemma StoreKeyOf(r: Ref)
    ensures StoreKey(r) == KeyOf(SlotOf(r)) && SlotOf(r).tenant == r.tenant && SlotOf(r).name == r.name
  {
    var slot := SlotOf(r);
    var ps := Parts(slot)[1..];
    if slot.owner.Some? {
      assert ps == [slot.owner.value.0, slot.owner.value.1, slot.name];
      assert ps[1..] == [slot.owner.value.1, slot.name] && ps[1..][1..] == [slot.name];
      assert Join(ps[1..], ':') == ps[1] + ":" + ps[2];
      assert KeyOf(slot) == ps[0] + ":" + (ps[1] + ":" + ps[2]);
    } else {
      assert ps == [slot.name];
    }
  }

  /** A scope without an id is the scope `default`, and the scope id does not matter for the tenant itself. */
  lemma DefaultScope(tenant: string, scope: string, id: Option<string>, name: string)
    ensures StoreKey(Ref(tenant, scope, None, name)) == StoreKey(Ref(tenant, scope, Some(""), name))
         == StoreKey(Ref(tenant, scope, Some("default"), name))
    ensures StoreKey(Ref(tenant, "tenant", id, name)) == name
    ensures scope != "tenant" && id.Some? && id.value != "" ==>
              StoreKey(Ref(tenant, scope, id, name)) == scope + ":" + id.value + ":" + name
  {
  }

  lemma PartsInjective(a: Slot, b: Slot)
    ensures Parts(a) == Parts(b) <==> a == b
  {
    var p, q := Parts(a), Parts(b);
    if p == q {
      assert p[0] == q[0] && p[1] == q[1] && p[|p| - 1] == q[|q| - 1];
      assert |p| == 4 ==> p[2] == q[2];
    }
  }

  /** Colon-free secrets have different memory keys, and different store keys within a tenant. */
  lemma KeysInjective(a: Slot, b: Slot)
    requires ColonFree(a) && ColonFree(b) && a != b
    ensures MemoryKey(a.tenant, KeyOf(a)) != MemoryKey(b.tenant, KeyOf(b))
    ensures a.tenant == b.tenant ==> KeyOf(a) != KeyOf(b)
  {
    PartsInjective(a, b);
    JoinInjective(Parts(a), Parts(b), ':');
    assert Join(Parts(a), ':') == MemoryKey(a.tenant, KeyOf(a));
    assert Join(Parts(b), ':') == MemoryKey(b.tenant, KeyOf(b));
  }

  lemma MemoryKeyInjective(t: string, k: string, t': string, k': string)
    requires ':' !in t && ':' !in t'
    ensures MemoryKey(t, k) == MemoryKey(t', k') <==> t == t' && k == k'
  {
    if MemoryKey(t, k) == MemoryKey(t', k') {
      SplitFirst(t, k, ':');
      SplitFirst(t', k', ':');
      assert ([t] + Split(k, ':'))[0] == ([t'] + Split(k', ':'))[0];
      assert MemoryKey(t, k)[|t| + 1..] == k && MemoryKey(t', k')[|t'| + 1..] == k';
    }
  }

  /**
   Plain values per secret: what a read returns, what the file keeps for the next restart, and all
   values ever saved with a version, oldest first.
   */
  datatype Vault = Vault(current: map<Slot, string>, kept: map<Slot, string>, log: map<Slot, seq<string>>)

  const NO_SECRETS := Vault(map[], map[], map[])

  function History(v: Vault, slot: Slot): seq<string> {
    if slot in v.log then v.log[slot] else []
  }

  function Put(v: Vault, slot: Slot, value: string, h: Answers): Vault {
    Vault(
      v.current[slot := value],
      if FileTakes(KeyOf(slot), h) then v.kept[slot := value] else v.kept,
      if LogTakes(KeyOf(slot), h) then v.log[slot := History(v, slot) + [value]] else v.log)
  }

  /** Any existing version can be rolled back to; a reload lets the files win, a restart leaves nothing else. */
  function VaultStep(v: Vault, e: Event): Vault {
    match e
    case Save(r, value, h) => if Accepts(r.name, value) then Put(v, SlotOf(r), value, h) else v
    case Delete(r, written) =>
      v.(current := v.current - {SlotOf(r)}, kept := if written then v.kept - {SlotOf(r)} else v.kept)
    case Rollback(r, n, h) =>
      if 1 <= n <= |History(v, SlotOf(r))| then Put(v, SlotOf(r), History(v, SlotOf(r))[n - 1], h) else v
    case Reload(_) => v.(current := v.current + v.kept)
    case Restart(_) => v.(current := v.kept)
  }

  function VaultRun(v: Vault, events: seq<Event>): Vault
    decreases |events|
  {
    if events == [] then v else VaultRun(VaultStep(v, events[0]), events[1..])
  }

  // ---------------------------------------------------------------- refinement

  function Get<T>(m: map<string, T>, key: string): Option<T> {
    if key in m then Some(m[key]) else None
  }

  /** A stored text stands for a value: it is there when the value is, and decrypts to it. */
  ghost predicate Holds(stored: Option<string>, c: Cipher, values: map<Slot, string>, slot: Slot) {
    && (stored.Some? <==> slot in values)
    && (stored.Some? ==> stored.value != "" && Decrypt(c, stored.value) == Some(values[slot]))
  }

  function InMemory(s: State, slot: Slot): Option<string> {
    Get(s.memory, MemoryKey(slot.tenant, KeyOf(slot)))
  }

  function OnDisk(s: State, slot: Slot): Option<string> {
    Get(File(s.disk, slot.tenant), KeyOf(slot))
  }

  /** The versions are numbered from 1 and decrypt to the history, all of it acceptable for the name. */
  ghost predicate LogAgrees(log: seq<Version>, c: Cipher, history: seq<string>, name: string) {
    && |log| == |history|
    && forall i :: 0 <= i < |log| ==>
         log[i].number == i + 1 && Decrypt(c, log[i].value) == Some(history[i]) && Accepts(name, history[i])
  }

  ghost predicate SlotAgrees(s: State, c: Cipher, v: Vault, slot: Slot) {
    && Holds(InMemory(s, slot), c, v.current, slot)
    && Holds(OnDisk(s, slot), c, v.kept, slot)
    && LogAgrees(LogOf(s, slot.tenant, KeyOf(slot)), c, History(v, slot), slot.name)
    && (KeyOf(slot) in INHERITED ==> History(v, slot) == [])
  }

  ghost predicate Refines(s: State, c: Cipher, v: Vault) {
    && (forall slot :: ColonFree(slot) ==> SlotAgrees(s, c, v, slot))
    && (forall t :: t in s.disk ==> ':' !in t)
  }

  /** A save touches only its own secret. */
  lemma SaveKeepsOthers(s: State, c: Cipher, r: Ref, value: string, h: Answers, x: Slot)
    requires ColonFree(SlotOf(r)) && ColonFree(x) && x != SlotOf(r) && Accepts(r.name, value)
    ensures var t := Saved(s, c, r, value, h).value;
            && InMemory(t, x) == InMemory(s, x) && OnDisk(t, x) == OnDisk(s, x)
            && LogOf(t, x.tenant, KeyOf(x)) == LogOf(s, x.tenant, KeyOf(x))
  {
    StoreKeyOf(r);
    KeysInjective(x, SlotOf(r));
  }

  lemma SaveElsewhere(s: State, c: Cipher, v: Vault, r: Ref, value: string, h: Answers, x: Slot)
    requires Accepts(r.name, value) && ColonFree(SlotOf(r)) && ColonFree(x) && x != SlotOf(r)
    requires SlotAgrees(s, c, v, x)
    ensures SlotAgrees(Saved(s, c, r, value, h).value, c, Put(v, SlotOf(r), value, h), x)
  {
    SaveKeepsOthers(s, c, r, value, h, x);
  }

  lemma AppendAgrees(log: seq<Version>, c: Cipher, history: seq<string>, name: string, value: string, iv: seq<Byte>)
    requires LogAgrees(log, c, history, name) && Inverts(c) && Accepts(name, value)
    ensures LogAgrees(log + [Version(|log| + 1, Encrypt(c, iv, value))], c, history + [value], name)
  {
    EncryptionRoundTrip(c, iv, value);
  }

  lemma SaveHere(s: State, c: Cipher, v: Vault, r: Ref, value: string, h: Answers)
    requires Accepts(r.name, value) && Inverts(c) && SlotAgrees(s, c, v, SlotOf(r))
    ensures SlotAgrees(Saved(s, c, r, value, h).value, c, Put(v, SlotOf(r), value, h), SlotOf(r))
  {
    StoreKeyOf(r);
    EncryptionRoundTrip(c, h.iv, value);
    AppendAgrees(LogOf(s, r.tenant, StoreKey(r)), c, History(v, SlotOf(r)), r.name, value, h.versionIv);
  }

  lemma SaveRefines(s: State, c: Cipher, v: Vault, r: Ref, value: string, h: Answers)
    requires Refines(s, c, v) && Inverts(c) && ColonFree(SlotOf(r)) && Accepts(r.name, value)
    ensures Saved(s, c, r, value, h).Some?
    ensures Refines(Saved(s, c, r, value, h).value, c, Put(v, SlotOf(r), value, h))
  {
    var t, w := Saved(s, c, r, value, h).value, Put(v, SlotOf(r), value, h);
    forall x | ColonFree(x) ensures SlotAgrees(t, c, w, x) {
      if x == SlotOf(r) {
        SaveHere(s, c, v, r, value, h);
      } else {
        SaveElsewhere(s, c, v, r, value, h, x);
      }
    }
    assert ':' !in Parts(SlotOf(r))[0];
  }

  lemma DeleteElsewhere(s: State, c: Cipher, v: Vault, r: Ref, written: bool, x: Slot)
    requires ColonFree(SlotOf(r)) && ColonFree(x) && x != SlotOf(r) && SlotAgrees(s, c, v, x)
    ensures SlotAgrees(Deleted(s, r, written), c, VaultStep(v, Delete(r, written)), x)
  {
    StoreKeyOf(r);
    KeysInjective(x, SlotOf(r));
  }

  lemma DeleteHere(s: State, c: Cipher, v: Vault, r: Ref, written: bool)
    requires SlotAgrees(s, c, v, SlotOf(r))
    ensures SlotAgrees(Deleted(s, r, written), c, VaultStep(v, Delete(r, written)), SlotOf(r))
  {
    StoreKeyOf(r);
  }

  lemma DeleteRefines(s: State, c: Cipher, v: Vault, r: Ref, written: bool)
    requires Refines(s, c, v) && ColonFree(SlotOf(r))
    ensures Refines(Deleted(s, r, written), c, VaultStep(v, Delete(r, written)))
  {
    forall x | ColonFree(x) ensures SlotAgrees(Deleted(s, r, written), c, VaultStep(v, Delete(r, written)), x) {
      if x == SlotOf(r) {
        DeleteHere(s, c, v, r, written);
      } else {
        DeleteElsewhere(s, c, v, r, written, x);
      }
    }
  }

  ghost predicate Numbered(vs: seq<(nat, string)>, history: seq<string>) {
    |vs| == |history| && forall i :: 0 <= i < |vs| ==> vs[i] == (i + 1, history[i])
  }

  lemma {:induction false} PlainLog(c: Cipher, log: seq<Version>, history: seq<string>, name: string)
    requires LogAgrees(log, c, history, name)
    ensures Plain(c, log).Some? && Numbered(Plain(c, log).value, history)
    decreases |log|
  {
    if log == [] {
    } else {
      var n := |log| - 1;
      PlainLog(c, log[..n], history[..n], name);
      var front := Plain(c, log[..n]).value;
      assert Plain(c, log) == Some(front + [(n + 1, history[n])]);
      assert forall i :: 0 <= i < n ==> front[i] == (i + 1, history[i]);
    }
  }

  lemma {:induction false} FindNumber(vs: seq<(nat, string)>, first: nat, n: nat)
    requires forall i :: 0 <= i < |vs| ==> vs[i].0 == first + i
    ensures FindVersion(vs, n) == if first <= n < first + |vs| then Some(vs[n - first].1) else None
    decreases |vs|
  {
    if vs == [] {
    } else {
      FindNumber(vs[1..], first + 1, n);
    }
  }

  /** A rollback works exactly for the versions there are, and then saves the value of that version. */
  lemma RollbackIff(s: State, c: Cipher, v: Vault, r: Ref, n: nat, h: Answers)
    requires Refines(s, c, v) && ColonFree(SlotOf(r))
    ensures var history := History(v, SlotOf(r));
            && (RolledBack(s, c, r, n, h).Some? <==> 1 <= n <= |history|)
            && (1 <= n <= |history| ==>
                  && Accepts(r.name, history[n - 1])
                  && RolledBack(s, c, r, n, h) == Saved(s, c, r, history[n - 1], h))
  {
    StoreKeyOf(r);
    assert SlotAgrees(s, c, v, SlotOf(r));
    VersionFound(c, LogOf(s, r.tenant, StoreKey(r)), History(v, SlotOf(r)), r.name, n);
  }

  lemma VersionFound(c: Cipher, log: seq<Version>, history: seq<string>, name: string, n: nat)
    requires LogAgrees(log, c, history, name)
    ensures Plain(c, log).Some?
    ensures FindVersion(Plain(c, log).value, n) == if 1 <= n <= |history| then Some(history[n - 1]) else None
    ensures 1 <= n <= |history| ==> Accepts(name, history[n - 1])
  {
    PlainLog(c, log, history, name);
    FindNumber(Plain(c, log).value, 1, n);
  }

  // ---------------------------------------------------------------- loading

  ghost predicate Listed(files: Listing, tenant: string, key: string, value: string) {
    exists i :: 0 <= i < |files| && files[i].0 == tenant && (key, value) in files[i].1
  }

  /** The listing has exactly the entries of the files. */
  ghost predicate Lists(files: Listing, disk: map<string, map<string, string>>) {
    && (forall i :: 0 <= i < |files| ==> files[i].0 in disk)
    && (forall t, k, value :: Listed(files, t, k, value) <==> Get(File(disk, t), k) == Some(value))
  }

  ghost predicate KeyIn(entries: seq<(string, string)>, key: string) {
    exists i :: 0 <= i < |entries| && entries[i].0 == key
  }

  lemma {:induction false} LoadAt(memory: map<string, string>, tenant: string, entries: seq<(string, string)>,
                                  t: string, k: string)
    requires ':' !in tenant && ':' !in t
    ensures var at := Get(Load(memory, tenant, entries), MemoryKey(t, k));
            if tenant == t && KeyIn(entries, k) then at.Some? && (k, at.value) in entries
            else at == Get(memory, MemoryKey(t, k))
    decreases |entries|
  {
    if entries == [] {
    } else {
      var front, e := entries[..|entries| - 1], entries[|entries| - 1];
      LoadAt(memory, tenant, front, t, k);
      MemoryKeyInjective(t, k, tenant, e.0);
      assert entries == front + [e];
      if KeyIn(front, k) {
        var i :| 0 <= i < |front| && front[i].0 == k;
        assert entries[i].0 == k;
      }
      if KeyIn(entries, k) && e.0 != k {
        var i :| 0 <= i < |entries| && entries[i].0 == k;
        assert front[i].0 == k;
      }
    }
  }

  ghost predicate HasKey(files: Listing, tenant: string, key: string) {
    exists i :: 0 <= i < |files| && files[i].0 == tenant && KeyIn(files[i].1, key)
  }

  lemma HasKeySplit(files: Listing, tenant: string, key: string)
    requires files != []
    ensures var front, f := files[..|files| - 1], files[|files| - 1];
            HasKey(files, tenant, key) <==> HasKey(front, tenant, key) || (f.0 == tenant && KeyIn(f.1, key))
  {
    var front := files[..|files| - 1];
    if HasKey(files, tenant, key) {
      var i :| 0 <= i < |files| && files[i].0 == tenant && KeyIn(files[i].1, key);
      assert i < |front| ==> front[i] == files[i];
    }
    if HasKey(front, tenant, key) {
      var i :| 0 <= i < |front| && front[i].0 == tenant && KeyIn(front[i].1, key);
      assert files[i] == front[i];
    }
  }

  lemma ListedGrows(files: Listing, tenant: string, key: string, value: string)
    requires files != []
    ensures var front, f := files[..|files| - 1], files[|files| - 1];
            Listed(front, tenant, key, value) || (f.0 == tenant && (key, value) in f.1) ==>
              Listed(files, tenant, key, value)
  {
    var front := files[..|files| - 1];
    if Listed(front, tenant, key, value) {
      var i :| 0 <= i < |front| && front[i].0 == tenant && (key, value) in front[i].1;
      assert files[i] == front[i];
    }
  }

  lemma {:induction false} LoadAllAt(memory: map<string, string>, files: Listing, t: string, k: string)
    requires ':' !in t && forall i :: 0 <= i < |files| ==> ':' !in files[i].0
    ensures var at := Get(LoadAll(memory, files), MemoryKey(t, k));
            if HasKey(files, t, k) then at.Some? && Listed(files, t, k, at.value)
            else at == Get(memory, MemoryKey(t, k))
    decreases |files|
  {
    if files == [] {
    } else {
      var front, f := files[..|files| - 1], files[|files| - 1];
      var before := LoadAll(memory, front);
      LoadAllAt(memory, front, t, k);
      LoadAt(before, f.0, f.1, t, k);
      HasKeySplit(files, t, k);
      var at := Get(LoadAll(memory, files), MemoryKey(t, k));
      if at.Some? {
        ListedGrows(files, t, k, at.value);
      }
    }
  }

  lemma LoadMirrors(memory: map<string, string>, files: Listing, disk: map<string, map<string, string>>,
                    t: string, k: string)
    requires Lists(files, disk) && ':' !in t && forall t :: t in disk ==> ':' !in t
    ensures Get(LoadAll(memory, files), MemoryKey(t, k))
         == (var stored := Get(File(disk, t), k); if stored.Some? then stored else Get(memory, MemoryKey(t, k)))
  {
    LoadAllAt(memory, files, t, k);
    var stored := Get(File(disk, t), k);
    if stored.Some? {
      assert Listed(files, t, k, stored.value);
      var i :| 0 <= i < |files| && files[i].0 == t && (k, stored.value) in files[i].1;
      assert KeyIn(files[i].1, k);
    }
    if HasKey(files, t, k) {
      var i :| 0 <= i < |files| && files[i].0 == t && KeyIn(files[i].1, k);
      var j :| 0 <= j < |files[i].1| && files[i].1[j].0 == k;
      assert Listed(files, t, k, files[i].1[j].1);
    }
  }

  /** A reload puts the files over memory; after a restart memory is what the files keep. */
  lemma LoadRefines(s: State, c: Cipher, v: Vault, files: Listing, restart: bool)
    requires Refines(s, c, v) && Lists(files, s.disk)
    ensures Refines(Step(s, c, if restart then Restart(files) else Reload(files)), c,
                    VaultStep(v, if restart then Restart(files) else Reload(files)))
  {
    var memory := if restart then map[] else s.memory;
    var t := s.(memory := LoadAll(memory, files));
    var w := v.(current := if restart then v.kept else v.current + v.kept);
    forall x | ColonFree(x) ensures SlotAgrees(t, c, w, x) {
      assert SlotAgrees(s, c, v, x);
      assert ':' !in Parts(x)[0];
      LoadMirrors(memory, files, s.disk, x.tenant, KeyOf(x));
    }
  }

  // ---------------------------------------------------------------- the properties

  /** Secrets are named without colons, and loading reads the files there are. */
  ghost predicate Proper(s: State, c: Cipher, events: seq<Event>)
    decreases |events|
  {
    events != [] ==>
      && (match events[0]
          case Save(r, _, _) => ColonFree(SlotOf(r))
          case Delete(r, _) => ColonFree(SlotOf(r))
          case Rollback(r, _, _) => ColonFree(SlotOf(r))
          case Reload(files) => Lists(files, s.disk)
          case Restart(files) => Lists(files, s.disk))
      && Proper(Step(s, c, events[0]), c, events[1..])
  }

  lemma RollbackRefines(s: State, c: Cipher, v: Vault, r: Ref, n: nat, h: Answers)
    requires Refines(s, c, v) && Inverts(c) && ColonFree(SlotOf(r))
    ensures Refines(Step(s, c, Rollback(r, n, h)), c, VaultStep(v, Rollback(r, n, h)))
  {
    RollbackIff(s, c, v, r, n, h);
    var history := History(v, SlotOf(r));
    if 1 <= n <= |history| {
      SaveRefines(s, c, v, r, history[n - 1], h);
    }
  }

  lemma StepRefines(s: State, c: Cipher, v: Vault, e: Event)
    requires Refines(s, c, v) && Inverts(c) && Proper(s, c, [e])
    ensures Refines(Step(s, c, e), c, VaultStep(v, e))
  {
    match e {
      case Save(r, value, h) =>
        if Accepts(r.name, value) {
          SaveRefines(s, c, v, r, value, h);
        }
      case Delete(r, written) => DeleteRefines(s, c, v, r, written);
      case Rollback(r, n, h) =>
        RollbackRefines(s, c, v, r, n, h);
      case Reload(files) => LoadRefines(s, c, v, files, false);
      case Restart(files) => LoadRefines(s, c, v, files, true);
    }
  }

  /**
   Over every run of saves, deletes, rollbacks, reloads and restarts, whichever writes fail, the
   encrypted store is the vault: memory holds the values reads return, the files those kept, and the
   versions are the values saved, numbered and never rewritten.
   */
  lemma {:induction false} StoreRefinesVault(s: State, c: Cipher, v: Vault, events: seq<Event>)
    requires Refines(s, c, v) && Inverts(c) && Proper(s, c, events)
    ensures Refines(Run(s, c, events), c, VaultRun(v, events))
    decreases |events|
  {
    if events == [] {
    } else {
      StepRefines(s, c, v, events[0]);
      StoreRefinesVault(Step(s, c, events[0]), c, VaultStep(v, events[0]), events[1..]);
    }
  }

  lemma FetchedAgrees(s: State, c: Cipher, v: Vault, r: Ref)
    requires SlotAgrees(s, c, v, SlotOf(r))
    ensures Fetched(s, c, r) == Some(if SlotOf(r) in v.current then Some(v.current[SlotOf(r)]) else None)
  {
    StoreKeyOf(r);
  }

  /** What `getSecret` returns in every reachable state: the current value, or null after none or a delete. */
  lemma FetchedIsCurrent(c: Cipher, events: seq<Event>, r: Ref)
    requires Inverts(c) && Proper(EMPTY, c, events) && ColonFree(SlotOf(r))
    ensures var current := VaultRun(NO_SECRETS, events).current;
            Fetched(Run(EMPTY, c, events), c, r)
              == Some(if SlotOf(r) in current then Some(current[SlotOf(r)]) else None)
  {
    StoreRefinesVault(EMPTY, c, NO_SECRETS, events);
    FetchedAgrees(Run(EMPTY, c, events), c, VaultRun(NO_SECRETS, events), r);
  }

  lemma SaveAppends(s: State, c: Cipher, r: Ref, value: string, h: Answers)
    requires Accepts(r.name, value)
    ensures LogOf(Saved(s, c, r, value, h).value, r.tenant, StoreKey(r))
         == LogOf(s, r.tenant, StoreKey(r))
            + if LogTakes(StoreKey(r), h)
              then [Version(|LogOf(s, r.tenant, StoreKey(r))| + 1, Encrypt(c, h.versionIv, value))] else []
  {
    if !LogTakes(StoreKey(r), h) {
      assert LogOf(s, r.tenant, StoreKey(r)) + [] == LogOf(s, r.tenant, StoreKey(r));
    }
  }

  /**
   After a save that validation accepts, a read returns the value, whatever else failed. If the
   version could be written it is the newest, numbered next, and decrypts to that value; the older
   ones are as they were in any case.
   */
  lemma {:induction false} SavedIsNewest(c: Cipher, events: seq<Event>, r: Ref, value: string, h: Answers)
    requires Inverts(c) && Proper(EMPTY, c, events) && ColonFree(SlotOf(r)) && Accepts(r.name, value)
    ensures var s := Run(EMPTY, c, events);
            var t := Saved(s, c, r, value, h).value;
            var before, log := LogOf(s, r.tenant, StoreKey(r)), LogOf(t, r.tenant, StoreKey(r));
            && before <= log && Fetched(t, c, r) == Some(Some(value))
            && (if LogTakes(StoreKey(r), h)
                then |log| == |before| + 1 && log[|before|].number == |log|
                     && Decrypt(c, log[|before|].value) == Some(value)
                else log == before)
  {
    var s, v := Run(EMPTY, c, events), VaultRun(NO_SECRETS, events);
    StoreRefinesVault(EMPTY, c, NO_SECRETS, events);
    SaveRefines(s, c, v, r, value, h);
    SaveAppends(s, c, r, value, h);
    EncryptionRoundTrip(c, h.versionIv, value);
    FetchedAgrees(Saved(s, c, r, value, h).value, c, Put(v, SlotOf(r), value, h), r);
  }

  lemma {:induction false} HistoryGrows(v: Vault, events: seq<Event>, slot: Slot)
    ensures History(v, slot) <= History(VaultRun(v, events), slot)
    decreases |events|
  {
    if events == [] {
    } else {
      HistoryGrows(VaultStep(v, events[0]), events[1..], slot);
    }
  }

  /**
   Every version there is in a reachable state can be rolled back to after any further run, deletion
   included; `getSecret` then returns that version's value.
   */
  lemma {:induction false} RollbackRestores(s: State, c: Cipher, v: Vault, later: seq<Event>, r: Ref, n: nat,
                                            h: Answers)
    requires Refines(s, c, v) && Inverts(c) && ColonFree(SlotOf(r)) && Proper(s, c, later)
    requires 1 <= n <= |History(v, SlotOf(r))|
    ensures var t := RolledBack(Run(s, c, later), c, r, n, h);
            t.Some? && Fetched(t.value, c, r) == Some(Some(History(v, SlotOf(r))[n - 1]))
  {
    var t, w := Run(s, c, later), VaultRun(v, later);
    HistoryGrows(v, later, SlotOf(r));
    StoreRefinesVault(s, c, v, later);
    RollbackIff(t, c, w, r, n, h);
    var value := History(w, SlotOf(r))[n - 1];
    SaveRefines(t, c, w, r, value, h);
    FetchedAgrees(RolledBack(t, c, r, n, h).value, c, Put(w, SlotOf(r), value, h), r);
  }

  // ---------------------------------------------------------------- memory against the files

  /** Memory and the files hold the very same texts. */
  ghost predicate Mirrored(s: State) {
    forall slot :: ColonFree(slot) ==> InMemory(s, slot) == OnDisk(s, slot)
  }

  /** The value an event saves, if it gets as far as that. */
  function Saving(s: State, c: Cipher, e: Event): Option<string> {
    match e
    case Save(r, value, _) => if Accepts(r.name, value) then Some(value) else None
    case Rollback(r, n, _) =>
      var vs := Recalled(c, s.versions, r.tenant, StoreKey(r));
      var v := if vs.None? then None else FindVersion(vs.value, n);
      if v.Some? && Accepts(r.name, v.value) then v else None
    case _ => None
  }

  predicate FileFollows(s: State, c: Cipher, r: Ref, value: string, h: Answers) {
    FileTakes(StoreKey(r), h) || Get(File(s.disk, r.tenant), StoreKey(r)) == Some(Encrypt(c, h.iv, value))
  }

  /** The file takes what memory takes: it can be written and has the property, or holds that text already. */
  predicate Faithful(s: State, c: Cipher, e: Event) {
    match e
    case Save(r, _, h) => Saving(s, c, e).Some? ==> FileFollows(s, c, r, Saving(s, c, e).value, h)
    case Rollback(r, _, h) => Saving(s, c, e).Some? ==> FileFollows(s, c, r, Saving(s, c, e).value, h)
    case Delete(r, written) => written || StoreKey(r) !in File(s.disk, r.tenant)
    case Reload(_) => true
    case Restart(_) => true
  }

  lemma SaveMirroredIff(s: State, c: Cipher, r: Ref, value: string, h: Answers)
    requires Mirrored(s) && ColonFree(SlotOf(r)) && Accepts(r.name, value)
    ensures Mirrored(Saved(s, c, r, value, h).value) <==> FileFollows(s, c, r, value, h)
  {
    var t := Saved(s, c, r, value, h).value;
    StoreKeyOf(r);
    assert InMemory(t, SlotOf(r)) == Some(Encrypt(c, h.iv, value));
    forall x | ColonFree(x) && x != SlotOf(r) ensures InMemory(t, x) == OnDisk(t, x) {
      SaveKeepsOthers(s, c, r, value, h, x);
    }
    if FileFollows(s, c, r, value, h) {
      assert OnDisk(t, SlotOf(r)) == InMemory(t, SlotOf(r));
    }
  }

  lemma DeleteMirroredIff(s: State, c: Cipher, v: Vault, r: Ref, written: bool)
    requires Mirrored(s) && Refines(s, c, v) && ColonFree(SlotOf(r))
    ensures Mirrored(Deleted(s, r, written)) <==> written || StoreKey(r) !in File(s.disk, r.tenant)
  {
    var t := Deleted(s, r, written);
    StoreKeyOf(r);
    assert SlotAgrees(s, c, v, SlotOf(r));
    assert InMemory(t, SlotOf(r)) == None;
    forall x | ColonFree(x) && x != SlotOf(r) ensures InMemory(t, x) == OnDisk(t, x) {
      KeysInjective(x, SlotOf(r));
    }
  }

  lemma LoadMirrored(s: State, memory: map<string, string>, files: Listing)
    requires Lists(files, s.disk) && forall t :: t in s.disk ==> ':' !in t
    requires Mirrored(s) && (memory == s.memory || memory == map[])
    ensures Mirrored(s.(memory := LoadAll(memory, files)))
  {
    forall x | ColonFree(x) ensures InMemory(s.(memory := LoadAll(memory, files)), x) == OnDisk(s, x) {
      assert ':' !in Parts(x)[0];
      LoadMirrors(memory, files, s.disk, x.tenant, KeyOf(x));
    }
  }

  lemma StepMirroredIff(s: State, c: Cipher, v: Vault, e: Event)
    requires Mirrored(s) && Refines(s, c, v) && Proper(s, c, [e])
    ensures Mirrored(Step(s, c, e)) <==> Faithful(s, c, e)
  {
    match e {
      case Save(r, value, h) =>
        if Accepts(r.name, value) {
          SaveMirroredIff(s, c, r, value, h);
        }
      case Rollback(r, n, h) =>
        var value := Saving(s, c, e);
        if value.Some? {
          SaveMirroredIff(s, c, r, value.value, h);
        }
      case Delete(r, written) => DeleteMirroredIff(s, c, v, r, written);
      case Reload(files) => LoadMirrored(s, s.memory, files);
      case Restart(files) => LoadMirrored(s, map[], files);
    }
  }

  ghost predicate AlwaysMirrored(s: State, c: Cipher, events: seq<Event>)
    decreases |events|
  {
    Mirrored(s) && (events == [] || AlwaysMirrored(Step(s, c, events[0]), c, events[1..]))
  }

  predicate AllFaithful(s: State, c: Cipher, events: seq<Event>)
    decreases |events|
  {
    events == [] || (Faithful(s, c, events[0]) && AllFaithful(Step(s, c, events[0]), c, events[1..]))
  }

  /**
   Memory equals the files after every operation of a run exactly when each save and delete gets its
   file written and no saved name is `__proto__`.
   */
  lemma {:induction false} MemoryEqualsFilesIff(s: State, c: Cipher, v: Vault, events: seq<Event>)
    requires Mirrored(s) && Refines(s, c, v) && Inverts(c) && Proper(s, c, events)
    ensures AlwaysMirrored(s, c, events) <==> AllFaithful(s, c, events)
    decreases |events|
  {
    if events == [] {
    } else {
      StepMirroredIff(s, c, v, events[0]);
      StepRefines(s, c, v, events[0]);
      if Faithful(s, c, events[0]) {
        MemoryEqualsFilesIff(Step(s, c, events[0]), c, VaultStep(v, events[0]), events[1..]);
      }
    }
  }

  /**
   All or nothing: with a fresh iv, a save reports success with memory, file and version written, or
   failure with nothing changed, exactly when validation refuses it, or its file, its version and its
   log can be written and its key is not an inherited name.
   */
  lemma SaveIsAtomicIff(s: State, c: Cipher, r: Ref, value: string, h: Answers)
    requires Get(s.memory, MemoryKey(r.tenant, StoreKey(r))) != Some(Encrypt(c, h.iv, value))
    ensures var t := Step(s, c, Save(r, value, h));
            var whole := Saved(s, c, r, value, h.(store := true, version := true, log := true));
            && ((Reports(r, value, h) && Some(t) == whole) || (!Reports(r, value, h) && t == s)
                <==> !Accepts(r.name, value)
                     || (h.store && h.version && h.log && StoreKey(r) !in INHERITED))
  {
    var t := Step(s, c, Save(r, value, h));
    assert Accepts(r.name, value) ==>
      Get(t.memory, MemoryKey(r.tenant, StoreKey(r))) == Some(Encrypt(c, h.iv, value));
  }

  /** A save whose file cannot be written fails, yet reads return its value until a restart brings the old one back. */
  lemma FailedSaveLastsUntilRestart(c: Cipher, r: Ref, first: string, second: string, h: Answers, files: Listing)
    requires Inverts(c) && ColonFree(SlotOf(r)) && Accepts(r.name, first) && Accepts(r.name, second)
    requires FileTakes(StoreKey(r), h)
    requires Lists(files, Step(EMPTY, c, Save(r, first, h)).disk)
    ensures var s := Step(EMPTY, c, Save(r, first, h));
            var t := Step(s, c, Save(r, second, h.(store := false)));
            && !Reports(r, second, h.(store := false))
            && Fetched(t, c, r) == Some(Some(second))
            && Fetched(Step(t, c, Restart(files)), c, r) == Some(Some(first))
  {
    var events := [Save(r, first, h), Save(r, second, h.(store := false)), Restart(files)];
    var s := Step(EMPTY, c, events[0]);
    var t := Step(s, c, events[1]);
    var v := VaultStep(NO_SECRETS, events[0]);
    var w := VaultStep(v, events[1]);
    StoreKeyOf(r);
    SaveRefines(EMPTY, c, NO_SECRETS, r, first, h);
    SaveRefines(s, c, v, r, second, h.(store := false));
    FetchedAgrees(t, c, w, r);
    LoadRefines(t, c, w, files, true);
    FetchedAgrees(Step(t, c, Restart(files)), c, VaultStep(w, Restart(files)), r);
  }

  /** A secret named like an inherited property never gets a version, so every save of it reports failure. */
  lemma InheritedNameFails(s: State, c: Cipher, r: Ref, value: string, h: Answers)
    requires r.scope == "tenant" && Accepts(r.name, value)
    requires r.name in {"constructor", "__proto__", "hasOwnProperty", "isPrototypeOf", "propertyIsEnumerable",
                        "toString", "toLocaleString", "valueOf", "__defineGetter__", "__defineSetter__",
                        "__lookupGetter__", "__lookupSetter__"}
    ensures r.tenant in s.versions ==> Recalled(c, s.versions, r.tenant, r.name).None?
    ensures var t := Step(s, c, Save(r, value, h));
            && !Reports(r, value, h) && t.versions == s.versions
            && Get(t.memory, MemoryKey(r.tenant, r.name)) == Some(Encrypt(c, h.iv, value))
            && (h.store && r.name != PROTO ==> Get(File(t.disk, r.tenant), r.name) == Some(Encrypt(c, h.iv, value)))
  {
  }

  /** With colons in names two secrets share one place: saving the second changes the first. */
  lemma {:induction false} ColonsCollide(c: Cipher, first: string, second: string, h: Answers)
    requires Inverts(c) && |first| >= 16 && |second| >= 16
    ensures var a, b := Ref("acme", "app", Some("web"), "token"), Ref("acme", "tenant", None, "app:web:token");
            var s := Step(EMPTY, c, Save(a, first, h));
            SlotOf(a) != SlotOf(b) && Fetched(Step(s, c, Save(b, second, h)), c, a) == Some(Some(second))
  {
    var a, b := Ref("acme", "app", Some("web"), "token"), Ref("acme", "tenant", None, "app:web:token");
    assert StoreKey(a) == StoreKey(b);
    EncryptionRoundTrip(c, h.iv, second);
  }
}
