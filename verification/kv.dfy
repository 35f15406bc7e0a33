/** The versioned key/value table that kvsrv1, kvraft1 and shardgrp all keep. */
module Kv {

  datatype Err = OK | ErrNoKey | ErrVersion | ErrMaybe | ErrWrongLeader | ErrWrongGroup

  datatype VersionedValue = VersionedValue(value: string, version: nat)

  type Table = map<string, VersionedValue>

  datatype Request =
    | GetArgs(key: string)
    | PutArgs(key: string, value: string, version: nat)

  datatype Reply =
    | GetReply(value: string, version: nat, err: Err)
    | PutReply(err: Err)

  function DoGet(t: Table, key: string): Reply {
    if key in t then GetReply(t[key].value, t[key].version, OK)
    else GetReply("", 0, ErrNoKey)
  }

  function DoPut(t: Table, key: string, value: string, version: nat): (Table, Reply) {
    if key in t then
      if t[key].version == version then
        (t[key := VersionedValue(value, version + 1)], PutReply(OK))
      else (t, PutReply(ErrVersion))
    else if version == 0 then
      (t[key := VersionedValue(value, 1)], PutReply(OK))
    else (t, PutReply(ErrNoKey))
  }

  /** One operation of the replicated state machine. */
  function DoOp(t: Table, r: Request): (Table, Reply) {
    match r
    case GetArgs(key) => (t, DoGet(t, key))
    case PutArgs(key, value, version) => DoPut(t, key, value, version)
  }
}
