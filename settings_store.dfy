/** The user's detection settings and their copy in the browser's local
    storage. Both controllers hold the settings as a plain object; loading
    spreads the stored object over the current one, so stored keys win and
    every other key keeps its value. */
module SettingsStore {
  import opened Optional

  /** A settings value as the stored JSON can hold it. */
  datatype Value = Number(n: real) | Text(s: string)

  /** A settings object (and the stored record): keys to values. */
  type Record = map<string, Value>

  const EarThresholdKey: string := "earThreshold"
  const YawnThresholdKey: string := "yawnThreshold"
  const AlertSoundKey: string := "alertSound"

  const Defaults: Record := map[
    EarThresholdKey := Number(0.3),
    YawnThresholdKey := Number(20.0),
    AlertSoundKey := Text("Alert.wav")]

  /** The three keys every settings object of the controllers carries. */
  ghost predicate Complete(r: Record) {
    EarThresholdKey in r && YawnThresholdKey in r && AlertSoundKey in r
  }

  /** `{ ...current, ...stored }`. */
  function Merge(current: Record, stored: Record): (r: Record)
    ensures r.Keys == current.Keys + stored.Keys
    ensures forall k :: k in stored ==> r[k] == stored[k]
    ensures forall k :: k in current && k !in stored ==> r[k] == current[k]
  {
    current + stored
  }

  /** `loadSettings`: the settings after reading local storage. */
  function Load(current: Record, storage: Option<Record>): (r: Record)
    ensures storage.None? ==> r == current
    ensures storage.Some? ==> r == Merge(current, storage.value)
  {
    match storage
    case None => current
    case Some(stored) => Merge(current, stored)
  }

  /** `saveSettingsConfig`: the three inputs written over the current object;
      any other key stays. The yawn threshold input is read with parseInt,
      so it is a whole number. */
  function Saved(current: Record, ear: real, yawn: int, sound: string): (r: Record)
    ensures Complete(r)
    ensures r[EarThresholdKey] == Number(ear)
    ensures r[YawnThresholdKey] == Number(yawn as real)
    ensures r[AlertSoundKey] == Text(sound)
    ensures forall k :: k in current && k !in Defaults ==> k in r && r[k] == current[k]
    ensures r.Keys == current.Keys + Defaults.Keys
  {
    current[EarThresholdKey := Number(ear)][YawnThresholdKey := Number(yawn as real)][AlertSoundKey := Text(sound)]
  }

  /** JavaScript `x < setting`: false unless the setting holds a number. */
  predicate Below(x: real, setting: Option<Value>) {
    setting.Some? && setting.value.Number? && x < setting.value.n
  }

  /** JavaScript `x > setting`: false unless the setting holds a number. */
  predicate Above(x: real, setting: Option<Value>) {
    setting.Some? && setting.value.Number? && x > setting.value.n
  }

  function Get(r: Record, key: string): Option<Value> {
    if key in r then Some(r[key]) else None
  }

  /** Loading the same record twice is loading it once. */
  lemma MergeIdempotent(current: Record, stored: Record)
    ensures Merge(Merge(current, stored), stored) == Merge(current, stored)
  {
  }

  /** A page that starts from the defaults and loads a record saved by the
      controller gets that record back exactly. */
  lemma ReloadRestoresSaved(current: Record, ear: real, yawn: int, sound: string)
    ensures Load(Defaults, Some(Saved(current, ear, yawn, sound))) == Saved(current, ear, yawn, sound)
  {
    var s := Saved(current, ear, yawn, sound);
    var r := Merge(Defaults, s);
    assert r.Keys == s.Keys;
    assert forall k :: k in r ==> r[k] == s[k];
  }

  /** After a reset (defaults in memory, storage cleared) a later load keeps
      the defaults. */
  lemma LoadAfterReset()
    ensures Load(Defaults, None) == Defaults && Complete(Defaults)
  {
  }

  /** Loading never loses one of the three keys. */
  lemma LoadKeepsComplete(current: Record, storage: Option<Record>)
    requires Complete(current)
    ensures Complete(Load(current, storage))
  {
  }
}
