/**
 * `SecureStorage`: a typed key-value store. The encrypted preferences file
 * is modelled as a map from key to typed value; encryption is not modelled.
 * Objects are stored as the string their JSON encoding gives. The
 * kotlinx.serialization codec is passed in as a pair of functions, each
 * giving `None` where the library throws: `encode` for a type with no
 * serializer, `decode` for such a type or for text it cannot parse.
 */
module Storage {
  import opened Wrappers
  import opened KotlinText

  /** A stored value, tagged with the type it was stored as. `Float` is kept as its IEEE-754 bit pattern. */
  datatype Value =
    | StringValue(s: string)
    | BoolValue(b: bool)
    | IntValue(i: int32)
    | LongValue(l: int64)
    | FloatValue(bits: bv32)

  /** The contents of the preferences file. */
  type Prefs = map<string, Value>

  // Typed reads of a map: the stored value when the key holds one of that
  // type, otherwise the caller's default.

  function StringOr(m: Prefs, key: string, default: string): string {
    if key in m && m[key].StringValue? then m[key].s else default
  }

  function BoolOr(m: Prefs, key: string, default: bool): bool {
    if key in m && m[key].BoolValue? then m[key].b else default
  }

  function IntOr(m: Prefs, key: string, default: int32): int32 {
    if key in m && m[key].IntValue? then m[key].i else default
  }

  function LongOr(m: Prefs, key: string, default: int64): int64 {
    if key in m && m[key].LongValue? then m[key].l else default
  }

  function FloatOr(m: Prefs, key: string, default: bv32): bv32 {
    if key in m && m[key].FloatValue? then m[key].bits else default
  }

  /**
   * `getObject`: the string under `key` (default `""`), decoded; null when
   * that string is empty and null when decoding fails (`decode` gives None).
   */
  function ObjectOr<T>(m: Prefs, key: string, decode: string -> Option<T>): (r: Option<T>)
    ensures StringOr(m, key, "") == "" ==> r == None
    ensures r.Some? ==> decode(StringOr(m, key, "")) == r
    ensures StringOr(m, key, "") != "" && decode(StringOr(m, key, "")).Some? ==> r.Some?
  {
    var json := StringOr(m, key, "");
    if json != "" then decode(json) else None
  }

  class SecureStorage {
    var prefs: Prefs

    /** The store as the app finds it at start-up. */
    constructor (initial: Prefs)
      ensures prefs == initial
    {
      prefs := initial;
    }

    method StoreString(key: string, value: string)
      modifies this
      ensures prefs == old(prefs)[key := StringValue(value)]
    {
      prefs := prefs[key := StringValue(value)];
    }

    function GetString(key: string, default: string := ""): string
      reads this
    {
      StringOr(prefs, key, default)
    }

    method StoreBoolean(key: string, value: bool)
      modifies this
      ensures prefs == old(prefs)[key := BoolValue(value)]
    {
      prefs := prefs[key := BoolValue(value)];
    }

    function GetBoolean(key: string, default: bool := false): bool
      reads this
    {
      BoolOr(prefs, key, default)
    }

    method StoreInt(key: string, value: int32)
      modifies this
      ensures prefs == old(prefs)[key := IntValue(value)]
    {
      prefs := prefs[key := IntValue(value)];
    }

    function GetInt(key: string, default: int32 := 0): int32
      reads this
    {
      IntOr(prefs, key, default)
    }

    method StoreLong(key: string, value: int64)
      modifies this
      ensures prefs == old(prefs)[key := LongValue(value)]
    {
      prefs := prefs[key := LongValue(value)];
    }

    function GetLong(key: string, default: int64 := 0): int64
      reads this
    {
      LongOr(prefs, key, default)
    }

    method StoreFloat(key: string, value: bv32)
      modifies this
      ensures prefs == old(prefs)[key := FloatValue(value)]
    {
      prefs := prefs[key := FloatValue(value)];
    }

    function GetFloat(key: string, default: bv32 := 0): bv32
      reads this
    {
      FloatOr(prefs, key, default)
    }

    /**
     * `storeObject`: exactly the encoding of `value`, stored as a string.
     * When encoding throws, nothing is written and `thrown` reports the
     * exception that reaches the caller.
     */
    method StoreObject<T>(key: string, value: T, encode: T -> Option<string>) returns (thrown: bool)
      modifies this
      ensures thrown <==> encode(value).None?
      ensures thrown ==> prefs == old(prefs)
      ensures !thrown ==> prefs == old(prefs)[key := StringValue(encode(value).value)]
    {
      var json := encode(value);
      if json.None? {
        return true;
      }
      StoreString(key, json.value);
      return false;
    }

    function GetObject<T>(key: string, decode: string -> Option<T>): Option<T>
      reads this
    {
      ObjectOr(prefs, key, decode)
    }

    function Contains(key: string): bool
      reads this
    {
      key in prefs
    }

    method Remove(key: string)
      modifies this
      ensures prefs == old(prefs) - {key}
      ensures !Contains(key)
    {
      prefs := prefs - {key};
    }

    method Clear()
      modifies this
      ensures prefs == map[]
    {
      prefs := map[];
    }
  }

  /** Reading a key right after storing `v` under it gives back `v`, for every typed pair. */
  lemma ReadAfterStore(m: Prefs, k: string, s: string, b: bool, i: int32, l: int64, f: bv32)
    ensures StringOr(m[k := StringValue(s)], k, "") == s
    ensures BoolOr(m[k := BoolValue(b)], k, false) == b
    ensures IntOr(m[k := IntValue(i)], k, 0) == i
    ensures LongOr(m[k := LongValue(l)], k, 0) == l
    ensures FloatOr(m[k := FloatValue(f)], k, 0) == f
  {
  }

  /** A key that is absent reads as the default of each getter: `""`, `false`, `0`, `0L`, `0f`. */
  lemma ReadAbsentKey(m: Prefs, k: string)
    requires k !in m
    ensures StringOr(m, k, "") == "" && !BoolOr(m, k, false)
    ensures IntOr(m, k, 0) == 0 && LongOr(m, k, 0) == 0 && FloatOr(m, k, 0) == 0
  {
  }

  /**
   * After `remove(k)`, `contains(k)` is false and every getter reads `k` as
   * its default, while `contains` and every getter read any other key, with
   * any default, as before.
   */
  lemma RemoveOnlyThatKey(m: Prefs, k: string, other: string,
                          ds: string, db: bool, di: int32, dl: int64, df: bv32)
    requires other != k
    ensures k !in m - {k}
    ensures StringOr(m - {k}, k, "") == "" && !BoolOr(m - {k}, k, false)
    ensures IntOr(m - {k}, k, 0) == 0 && LongOr(m - {k}, k, 0) == 0 && FloatOr(m - {k}, k, 0) == 0
    ensures (other in m - {k}) == (other in m)
    ensures StringOr(m - {k}, other, ds) == StringOr(m, other, ds) && BoolOr(m - {k}, other, db) == BoolOr(m, other, db)
    ensures IntOr(m - {k}, other, di) == IntOr(m, other, di) && LongOr(m - {k}, other, dl) == LongOr(m, other, dl)
    ensures FloatOr(m - {k}, other, df) == FloatOr(m, other, df)
  {
    ReadAbsentKey(m - {k}, k);
  }

  /**
   * `getObject` after a `storeObject` that did not throw returns the object,
   * given that the codec round-trips it and that its encoding is not the
   * empty string (which `getObject` reads as "absent").
   */
  lemma ObjectRoundTrip<T>(m: Prefs, k: string, x: T, encode: T -> Option<string>, decode: string -> Option<T>)
    requires encode(x).Some? && encode(x).value != ""
    requires decode(encode(x).value) == Some(x)
    ensures ObjectOr(m[k := StringValue(encode(x).value)], k, decode) == Some(x)
  {
  }

  /** An object whose encoding is empty is never read back, whatever the codec. */
  lemma EmptyEncodingReadsAsNull<T>(m: Prefs, k: string, x: T, encode: T -> Option<string>, decode: string -> Option<T>)
    requires encode(x) == Some("")
    ensures ObjectOr(m[k := StringValue(encode(x).value)], k, decode) == None
  {
  }

  /** For a type the decoder has no serializer for, `getObject` is null whatever is stored. */
  lemma NoSerializerReadsAsNull<T>(m: Prefs, k: string, decode: string -> Option<T>)
    requires forall json :: decode(json).None?
    ensures ObjectOr(m, k, decode) == None
  {
  }
}
