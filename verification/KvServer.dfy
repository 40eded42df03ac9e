/** The versioned key/value server: a store of values with version numbers, read by Get
    and updated by a Put that compares the version and then swaps the value. */
module KvServer {

  datatype Err = OK | ErrNoKey | ErrVersion | ErrMaybe

  datatype KeyValue = KeyValue(value: string, version: nat)

  type Store = map<string, KeyValue>

  datatype GetReply = GetReply(value: string, version: nat, err: Err)

  datatype PutArgs = PutArgs(key: string, value: string, version: nat)

  /** A key that was never written reads as the empty value at version 0. */
  function ValueOf(data: Store, key: string): string {
    if key in data then data[key].value else ""
  }

  function VersionOf(data: Store, key: string): nat {
    if key in data then data[key].version else 0
  }

  /** Stored keys have been written at least once. */
  predicate ValidStore(data: Store) {
    forall key :: key in data ==> data[key].version > 0
  }

  function OnGet(data: Store, key: string): GetReply {
    if key in data then GetReply(data[key].value, data[key].version, OK)
    else GetReply("", 0, ErrNoKey)
  }

  function OnPut(data: Store, args: PutArgs): (Store, Err) {
    if args.key in data then
      if args.version == data[args.key].version
      then (data[args.key := KeyValue(args.value, data[args.key].version + 1)], OK)
      else (data, ErrVersion)
    else
      if args.version == 0
      then (data[args.key := KeyValue(args.value, 1)], OK)
      else (data, ErrNoKey)
  }

  /** Put as a compare-and-swap on (value, version): it succeeds exactly when the version
      is current, a success installs the value at the next version and touches no other
      key, and every failure leaves the store alone and says whether the key exists. */
  lemma PutIsCompareAndSwap(data: Store, args: PutArgs)
    requires ValidStore(data)
    ensures var (data', err) := OnPut(data, args);
      && ValidStore(data')
      && (err == OK <==> args.version == VersionOf(data, args.key))
      && (err == OK ==>
          && ValueOf(data', args.key) == args.value
          && VersionOf(data', args.key) == VersionOf(data, args.key) + 1
          && forall k :: k != args.key ==> (k in data' <==> k in data) && (k in data ==> data'[k] == data[k]))
      && (err != OK ==> data' == data && err == if args.key in data then ErrVersion else ErrNoKey)
  {
  }

  class KVServer {
    var data: Store

    constructor ()
      ensures data == map[]
    {
      data := map[];
    }

    method Get(key: string) returns (reply: GetReply)
      ensures reply == OnGet(data, key)
    {
      if key in data {
        reply := GetReply(data[key].value, data[key].version, OK);
      } else {
        reply := GetReply("", 0, ErrNoKey);
      }
    }

    method Put(args: PutArgs) returns (err: Err)
      modifies this
      ensures (data, err) == OnPut(old(data), args)
    {
      if args.key in data {
        var current := data[args.key];
        if args.version == current.version {
          data := data[args.key := KeyValue(args.value, current.version + 1)];
          err := OK;
        } else {
          err := ErrVersion;
        }
      } else {
        if args.version == 0 {
          data := data[args.key := KeyValue(args.value, 1)];
          err := OK;
        } else {
          err := ErrNoKey;
        }
      }
    }
  }
}
