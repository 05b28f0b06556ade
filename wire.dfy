/**
 * JSON documents at the level of structure, as Go's encoding/json writes and
 * reads them. Objects are maps from member name to value, so member order is
 * immaterial and "which members are present" is a set.
 */
module Wire {
  import opened Wrappers

  /** A JSON value. Numbers are integers: every numeric request field modelled is a Go int. */
  datatype Json =
    | JNull
    | JBool(b: bool)
    | JNum(n: int)
    | JStr(s: string)
    | JArr(items: seq<Json>)
    | JObj(fields: map<string, Json>)

  /** A Go slice: `None` is the nil slice, `Some(s)` a non-nil one (possibly empty). */
  type Slice<T> = Option<seq<T>>

  /** What `omitempty` tests for a slice: it is written only when its length is not zero. */
  predicate NonEmpty<T>(s: Slice<T>) {
    s.Some? && |s.value| > 0
  }

  /** The slice `omitempty` cannot tell apart from `s`: an empty slice becomes nil. */
  function DropEmpty<T>(s: Slice<T>): (r: Slice<T>)
    ensures NonEmpty(r) == NonEmpty(s)
    ensures r.None? || NonEmpty(r)
    ensures NonEmpty(s) ==> r == s
  {
    if NonEmpty(s) then s else None
  }

  /** The member `key` of an object, if present. */
  function Member(m: map<string, Json>, key: string): (v: Option<Json>)
    ensures v.Some? <==> key in m
  {
    if key in m then Some(m[key]) else None
  }

  /** A member that is written only when `present` holds. */
  function When(present: bool, v: Json): (r: Option<Json>)
    ensures r.Some? <==> present
  {
    if present then Some(v) else None
  }

  /** A non-nil `[]string` as encoding/json writes it. */
  function StringArray(s: seq<string>): (j: Json)
    ensures j.JArr? && |j.items| == |s|
  {
    JArr(seq(|s|, i requires 0 <= i < |s| => JStr(s[i])))
  }

  /** A `[]string` field as written: nil is `null`. */
  function NullableStrings(s: Slice<string>): (j: Json)
    ensures j.JNull? <==> s.None?
  {
    if s.None? then JNull else StringArray(s.value)
  }

  // Readers: how encoding/json fills a zero field from an optional member
  // written by the encoders. An absent member leaves Go's zero value; so,
  // in this model, does one of the wrong kind (for a pointer field Go would
  // allocate a zero value instead of leaving nil).

  function ReadStr(v: Option<Json>): (s: string) {
    if v.Some? && v.value.JStr? then v.value.s else ""
  }

  /** A `*string` member: `null` or absent reads as nil. */
  function ReadStrPointer(v: Option<Json>): (s: Option<string>) {
    if v.Some? && v.value.JStr? then Some(v.value.s) else None
  }

  function ReadNum(v: Option<Json>): (n: int) {
    if v.Some? && v.value.JNum? then v.value.n else 0
  }

  function ReadBool(v: Option<Json>): (b: bool) {
    v.Some? && v.value.JBool? && v.value.b
  }

  function ReadStrings(v: Option<Json>): (s: Slice<string>) {
    if v.Some? && v.value.JArr? then
      var items := v.value.items;
      Some(seq(|items|, i requires 0 <= i < |items| => if items[i].JStr? then items[i].s else ""))
    else None
  }

  /** A `[]string` field written without `omitempty` reads back unchanged, nil included. */
  lemma {:induction false} NullableStringsRoundTrip(s: Slice<string>)
    ensures ReadStrings(Some(NullableStrings(s))) == s
  {
    if s.Some? {
      var r := ReadStrings(Some(NullableStrings(s))).value;
      assert |r| == |s.value|;
      forall i | 0 <= i < |r| ensures r[i] == s.value[i] {
        assert StringArray(s.value).items[i] == JStr(s.value[i]);
      }
      assert r == s.value;
    }
  }

  /** A `[]string` field written under `omitempty` reads back with an empty slice turned into nil. */
  lemma {:induction false} OmitEmptyStringsRoundTrip(s: Slice<string>)
    ensures ReadStrings(When(NonEmpty(s), NullableStrings(s))) == DropEmpty(s)
  {
    if NonEmpty(s) {
      NullableStringsRoundTrip(s);
    }
  }

  /** Turning an empty slice into nil does not change what `omitempty` writes. */
  lemma {:induction false} DropEmptySameWire(s: Slice<string>)
    ensures When(NonEmpty(DropEmpty(s)), NullableStrings(DropEmpty(s))) == When(NonEmpty(s), NullableStrings(s))
  {
  }
}
