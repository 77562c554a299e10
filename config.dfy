/**
 * The key-value settings store: documents `{key, value, updatedAt}` whose value may be a number
 * or an object of named numbers, and `findOne({ key })` over them.
 */
module Config {
  import opened Common

  /** A setting's value: a plain number, or an object such as `{ price, multiplier }`. */
  datatype SettingValue = Num(n: int) | Fields(fields: map<string, int>)

  datatype SettingDoc = SettingDoc(key: string, value: SettingValue, updatedAt: Day)

  /** The schema declares `key` unique: no two documents share a key. */
  ghost predicate UniqueKeys(docs: seq<SettingDoc>) {
    forall i, j | 0 <= i < j < |docs| :: docs[i].key != docs[j].key
  }

  /** `findOne({ key })`: the value of the first document with that key, if there is one. */
  function FindSetting(docs: seq<SettingDoc>, key: string): Option<SettingValue> {
    if docs == [] then None
    else if docs[0].key == key then Some(docs[0].value)
    else FindSetting(docs[1..], key)
  }

  /** The lookup finds nothing exactly when no document has the key, and otherwise the first one's value. */
  lemma {:induction false} FindSettingSpec(docs: seq<SettingDoc>, key: string)
    ensures FindSetting(docs, key).None? <==> forall i | 0 <= i < |docs| :: docs[i].key != key
    ensures FindSetting(docs, key).Some? ==>
      exists i | 0 <= i < |docs| :: docs[i].key == key && docs[i].value == FindSetting(docs, key).value
                                    && forall j | 0 <= j < i :: docs[j].key != key
  {
    if docs == [] || docs[0].key == key {
      if docs != [] {
        assert docs[0].key == key && docs[0].value == FindSetting(docs, key).value;
      }
    } else {
      var tail := docs[1..];
      FindSettingSpec(tail, key);
      assert forall i | 0 <= i < |tail| :: tail[i] == docs[i + 1];
      if FindSetting(tail, key).Some? {
        var i :| 0 <= i < |tail| && tail[i].key == key && tail[i].value == FindSetting(tail, key).value
                 && forall j | 0 <= j < i :: tail[j].key != key;
        assert docs[i + 1].key == key;
        assert forall j | 0 <= j < i + 1 :: docs[j].key != key by {
          forall j | 0 <= j < i + 1 ensures docs[j].key != key {
            if j > 0 { assert docs[j] == tail[j - 1]; }
          }
        }
      } else {
        forall i | 0 <= i < |docs| ensures docs[i].key != key {
          if i > 0 { assert docs[i] == tail[i - 1]; }
        }
      }
    }
  }

  /** JavaScript `Number(value)`: an object is not a number (NaN), reported as `None`. */
  function ToNumber(v: SettingValue): (r: Option<int>)
    ensures r.Some? <==> v.Num?
    ensures v.Num? ==> r.value == v.n
  {
    match v
    case Num(n) => Some(n)
    case Fields(_) => None
  }
}
