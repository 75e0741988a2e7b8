/**
 * `StateManager`: the record of what was last seen, kept in `.monitor_state.json`.
 * Reading and writing the file are not modelled; the outcome of reading it is a parameter.
 */
module State {

  import opened Wrappers

  /** The four keys of the state record. */
  datatype Key = LastCommit | LastTag | LastRelease | LastCheck

  /** The state record; `None` is JSON null, "never seen". */
  datatype Record = Record(lastCommit: Option<string>, lastTag: Option<string>, lastRelease: Option<string>, lastCheck: Option<string>)
  {
    /** `state[key]`. */
    function Get(k: Key): Option<string>
    {
      match k
      case LastCommit => lastCommit
      case LastTag => lastTag
      case LastRelease => lastRelease
      case LastCheck => lastCheck
    }

    /** `state[key] = v`: that key changes, every other stays. */
    function Set(k: Key, v: Option<string>): (r: Record)
      ensures r.Get(k) == v
      ensures forall k' :: k' != k ==> r.Get(k') == Get(k')
    {
      match k
      case LastCommit => this.(lastCommit := v)
      case LastTag => this.(lastTag := v)
      case LastRelease => this.(lastRelease := v)
      case LastCheck => this.(lastCheck := v)
    }
  }

  /** The record used when there is no state file or it cannot be read. */
  const Default := Record(None, None, None, None)

  /** The outcome of reading the state file. */
  datatype LoadResult = Missing | Unreadable | Parsed(record: Record)

  /** `_load_state`: the parsed record, or all four keys `None` when the file is missing or unreadable. */
  function Initial(load: LoadResult): (r: Record)
    ensures forall k :: r.Get(k) == if load.Parsed? then load.record.Get(k) else None
  {
    if load.Parsed? then load.record else Default
  }

  /** `update(key, value)` at time `now`: `key` holds `value`, `last_check` holds `now`, nothing else moves. */
  function Updated(rec: Record, key: Key, value: string, now: string): (r: Record)
    ensures r.Get(LastCheck) == Some(now)
    ensures key != LastCheck ==> r.Get(key) == Some(value)
    ensures forall k :: k != key && k != LastCheck ==> r.Get(k) == rec.Get(k)
  {
    rec.Set(key, Some(value)).Set(LastCheck, Some(now))
  }

  class StateManager {

    var state: Record

    /** `StateManager()`: loads the state, falling back to the default record. */
    constructor (load: LoadResult)
      ensures state == Initial(load)
    {
      state := Initial(load);
    }

    /** `update(key, value)`, with `now` standing for `datetime.now().isoformat()`. */
    method Update(key: Key, value: string, now: string)
      modifies this
      ensures state == Updated(old(state), key, value, now)
      ensures state.Get(LastCheck) == Some(now)
      ensures key != LastCheck ==> state.Get(key) == Some(value)
      ensures forall k :: k != key && k != LastCheck ==> state.Get(k) == old(state).Get(k)
    {
      state := state.Set(key, Some(value));
      state := state.Set(LastCheck, Some(now));
    }
  }
}
