/**
 * The create/update/delete handlers of js/crud.js over the two backends:
 * the browser's local store (key 'projectsData') and the hosted JSON
 * document. Each handler is one atomic read-modify-write.
 */
module Crud {
  import opened Wrappers
  import opened Text
  import opened Errors
  import opened Items
  import opened JsonBin

  /** What the local key holds: nothing (or the empty string), text that
      does not parse, or a serialised collection. */
  datatype Stored = Missing | Corrupt | Value(items: seq<Item>)

  /** `readLocal()`: fail-soft, so a missing or unparsable value reads as
      the empty collection. */
  function ReadLocal(s: Stored): (items: seq<Item>)
    ensures s.Value? ==> items == s.items
    ensures !s.Value? ==> items == []
  {
    if s.Value? then s.items else []
  }

  /** After `writeLocal(arr)`, `readLocal()` yields `arr`; writing back what
      was read changes nothing a later read can see. The stored value itself
      changes when it was missing or unparsable: it becomes `[]`. */
  lemma WriteThenRead(arr: seq<Item>, s: Stored)
    ensures ReadLocal(Value(arr)) == arr
    ensures ReadLocal(Value(ReadLocal(s))) == ReadLocal(s)
  {
  }

  /** The selected store. Remote I/O is a parameter: the response the GET
      gets and the status the PUT gets. */
  datatype Backend = Local | Remote(readResponse: Response, writeStatus: nat)

  /** `readData()` against the local value `local`. */
  function ReadCollection(b: Backend, local: Stored): Result<seq<Item>, Error> {
    match b
    case Local => Success(ReadLocal(local))
    case Remote(res, _) => ReadRemote(res)
  }

  /** The error `writeData(arr)` throws, if any. */
  function WriteError(b: Backend): Option<Error> {
    match b
    case Local => None
    case Remote(_, status) => StatusError(status)
  }

  /** What a handler reports: a success message (and whether the form is
      reset), or the error whose message is shown. */
  datatype Reply = Done(message: string, resetForm: bool) | Failed(error: Error)

  class ProjectStore {
    /** The local key 'projectsData'. */
    var local: Stored
    /** The remote document as last replaced by a successful PUT. */
    var remote: seq<Item>

    constructor (local: Stored, remote: seq<Item>)
      ensures this.local == local && this.remote == remote
    {
      this.local := local;
      this.remote := remote;
    }

    /** The collection the backend now holds, as far as this client knows. */
    ghost function Current(b: Backend): seq<Item>
      reads this
    {
      if b.Local? then ReadLocal(local) else remote
    }

    method ReadData(b: Backend) returns (r: Result<seq<Item>, Error>)
      ensures b.Local? ==> r == Success(ReadLocal(local))
      ensures b.Remote? ==> r == ReadRemote(b.readResponse)
    {
      r := ReadCollection(b, local);
    }

    /** `writeData(arr)`: a full replace of the selected backend's value. */
    method WriteData(b: Backend, arr: seq<Item>) returns (err: Option<Error>)
      modifies this
      ensures err == WriteError(b)
      ensures b.Local? ==> local == Value(arr) && remote == old(remote)
      ensures b.Remote? ==> local == old(local)
      ensures b.Remote? ==> remote == if err.None? then arr else old(remote)
    {
      err := WriteError(b);
      if b.Local? {
        local := Value(arr);
      } else if err.None? {
        remote := arr;
      }
    }

    /** Steps 3-5 of the create handler: read, `arr.push(item)`, write back. */
    method Append(b: Backend, item: Item) returns (err: Option<Error>)
      modifies this
      ensures err.Some? ==> local == old(local) && remote == old(remote)
      ensures ReadCollection(b, old(local)).Failure?
        ==> err == Some(ReadCollection(b, old(local)).error)
      ensures ReadCollection(b, old(local)).Success? ==> err == WriteError(b)
      ensures err.None? ==>
        && Current(b) == ReadCollection(b, old(local)).value + [item]
        && (b.Local? ==> local.Value? && remote == old(remote))
        && (b.Remote? ==> local == old(local))
    {
      var read := ReadData(b);
      if read.Failure? {
        return Some(read.error);
      }
      var arr := read.value + [item];
      err := WriteData(b, arr);
    }

    /** Steps 3-6 of the update handler: read, range check, `arr[i] = item`,
        write back. */
    method ReplaceAt(b: Backend, i: nat, item: Item) returns (err: Option<Error>)
      modifies this
      ensures err.Some? ==> local == old(local) && remote == old(remote)
      ensures ReadCollection(b, old(local)).Failure?
        ==> err == Some(ReadCollection(b, old(local)).error)
      ensures ReadCollection(b, old(local)).Success? && i >= |ReadCollection(b, old(local)).value|
        ==> err == Some(OutOfRange(|ReadCollection(b, old(local)).value|))
      ensures ReadCollection(b, old(local)).Success? && i < |ReadCollection(b, old(local)).value|
        ==> err == WriteError(b)
      ensures err.None? ==>
        var before := ReadCollection(b, old(local)).value;
        && |Current(b)| == |before|
        && Current(b)[i] == item
        && (forall j :: 0 <= j < |before| && j != i ==> Current(b)[j] == before[j])
        && (b.Local? ==> local.Value? && remote == old(remote))
        && (b.Remote? ==> local == old(local))
    {
      var read := ReadData(b);
      if read.Failure? {
        return Some(read.error);
      }
      var arr := read.value;
      if i >= |arr| {
        return Some(OutOfRange(|arr|));
      }
      arr := arr[i := item];
      err := WriteData(b, arr);
    }

    /** Steps 2-5 of the delete handler: read, range check,
        `arr.splice(i, 1)`, write back. */
    method RemoveAt(b: Backend, i: nat) returns (err: Option<Error>)
      modifies this
      ensures err.Some? ==> local == old(local) && remote == old(remote)
      ensures ReadCollection(b, old(local)).Failure?
        ==> err == Some(ReadCollection(b, old(local)).error)
      ensures ReadCollection(b, old(local)).Success? && i >= |ReadCollection(b, old(local)).value|
        ==> err == Some(OutOfRange(|ReadCollection(b, old(local)).value|))
      ensures ReadCollection(b, old(local)).Success? && i < |ReadCollection(b, old(local)).value|
        ==> err == WriteError(b)
      ensures err.None? ==>
        var before := ReadCollection(b, old(local)).value;
        && Current(b) == before[..i] + before[i + 1..]
        && |Current(b)| == |before| - 1
        && (forall j :: 0 <= j < i ==> Current(b)[j] == before[j])
        && (forall j :: i <= j < |Current(b)| ==> Current(b)[j] == before[j + 1])
        && (b.Local? ==> local.Value? && remote == old(remote))
        && (b.Remote? ==> local == old(local))
    {
      var read := ReadData(b);
      if read.Failure? {
        return Some(read.error);
      }
      var arr := read.value;
      if i >= |arr| {
        return Some(OutOfRange(|arr|));
      }
      arr := arr[..i] + arr[i + 1..];
      err := WriteData(b, arr);
    }

    /** The create handler (`attachCreate`): validation comes before any
        read or write. */
    method Create(b: Backend, f: Form) returns (reply: Reply)
      modifies this
      ensures reply.Failed? ==> local == old(local) && remote == old(remote)
      ensures ValidateItem(CollectItem(f)).Some? ==> reply == Failed(MissingFields)
      ensures ValidateItem(CollectItem(f)).None? && ReadCollection(b, old(local)).Failure?
        ==> reply == Failed(ReadCollection(b, old(local)).error)
      ensures ValidateItem(CollectItem(f)).None? && ReadCollection(b, old(local)).Success?
        ==> reply == if WriteError(b).Some? then Failed(WriteError(b).value)
                     else Done("Item created successfully. Reload projects to view.", true)
      ensures reply.Done? ==>
        && Current(b) == ReadCollection(b, old(local)).value + [CollectItem(f)]
        && (b.Local? ==> local.Value? && remote == old(remote))
        && (b.Remote? ==> local == old(local))
    {
      var item := CollectItem(f);
      var invalid := ValidateItem(item);
      if invalid.Some? {
        return Failed(invalid.value);
      }
      var err := Append(b, item);
      if err.Some? {
        return Failed(err.value);
      }
      reply := Done("Item created successfully. Reload projects to view.", true);
    }

    /** The update handler (`attachUpdate`), given `Number(index)`: the index
        is checked first, then the item, then the range against the length
        just read. */
    method Update(b: Backend, f: Form, index: Number) returns (reply: Reply)
      modifies this
      ensures reply.Failed? ==> local == old(local) && remote == old(remote)
      ensures GetIndex(index).Failure? ==> reply == Failed(BadIndex)
      ensures GetIndex(index).Success? && ValidateItem(CollectItem(f)).Some?
        ==> reply == Failed(MissingFields)
      ensures GetIndex(index).Success? && ValidateItem(CollectItem(f)).None?
        && ReadCollection(b, old(local)).Failure?
        ==> reply == Failed(ReadCollection(b, old(local)).error)
      ensures GetIndex(index).Success? && ValidateItem(CollectItem(f)).None?
        && ReadCollection(b, old(local)).Success?
        && GetIndex(index).value >= |ReadCollection(b, old(local)).value|
        ==> reply == Failed(OutOfRange(|ReadCollection(b, old(local)).value|))
      ensures GetIndex(index).Success? && ValidateItem(CollectItem(f)).None?
        && ReadCollection(b, old(local)).Success?
        && GetIndex(index).value < |ReadCollection(b, old(local)).value|
        ==> reply == if WriteError(b).Some? then Failed(WriteError(b).value)
                     else Done("Item at index " + Decimal(GetIndex(index).value)
                               + " updated. Reload projects to view.", false)
      ensures reply.Done? ==>
        var i, before := GetIndex(index).value, ReadCollection(b, old(local)).value;
        && |Current(b)| == |before|
        && Current(b)[i] == CollectItem(f)
        && (forall j :: 0 <= j < |before| && j != i ==> Current(b)[j] == before[j])
        && (b.Local? ==> local.Value? && remote == old(remote))
        && (b.Remote? ==> local == old(local))
    {
      var idx := GetIndex(index);
      if idx.Failure? {
        return Failed(idx.error);
      }
      var item := CollectItem(f);
      var invalid := ValidateItem(item);
      if invalid.Some? {
        return Failed(invalid.value);
      }
      var err := ReplaceAt(b, idx.value, item);
      if err.Some? {
        return Failed(err.value);
      }
      reply := Done("Item at index " + Decimal(idx.value) + " updated. Reload projects to view.", false);
    }

    /** The delete handler (`attachDelete`), given `Number(index)`. */
    method Delete(b: Backend, index: Number) returns (reply: Reply)
      modifies this
      ensures reply.Failed? ==> local == old(local) && remote == old(remote)
      ensures GetIndex(index).Failure? ==> reply == Failed(BadIndex)
      ensures GetIndex(index).Success? && ReadCollection(b, old(local)).Failure?
        ==> reply == Failed(ReadCollection(b, old(local)).error)
      ensures GetIndex(index).Success? && ReadCollection(b, old(local)).Success?
        && GetIndex(index).value >= |ReadCollection(b, old(local)).value|
        ==> reply == Failed(OutOfRange(|ReadCollection(b, old(local)).value|))
      ensures GetIndex(index).Success? && ReadCollection(b, old(local)).Success?
        && GetIndex(index).value < |ReadCollection(b, old(local)).value|
        ==> reply == if WriteError(b).Some? then Failed(WriteError(b).value)
                     else Done("Item at index " + Decimal(GetIndex(index).value)
                               + " deleted. Reload projects to view.", true)
      ensures reply.Done? ==>
        var i, before := GetIndex(index).value, ReadCollection(b, old(local)).value;
        && Current(b) == before[..i] + before[i + 1..]
        && (b.Local? ==> local.Value? && remote == old(remote))
        && (b.Remote? ==> local == old(local))
    {
      var idx := GetIndex(index);
      if idx.Failure? {
        return Failed(idx.error);
      }
      var err := RemoveAt(b, idx.value);
      if err.Some? {
        return Failed(err.value);
      }
      reply := Done("Item at index " + Decimal(idx.value) + " deleted. Reload projects to view.", true);
    }
  }

  /** `err.message || 'Update failed.'` (and the create and delete
      variants): every error has a non-empty message, so the fallback never
      shows. */
  function ErrorText(e: Error, fallback: string): (m: string)
    ensures m == Message(e)
  {
    OrElse(Message(e), fallback)
  }
}

/** Client-side scenarios, proved from the handlers' contracts alone. */
module CrudScenarios {
  import opened Wrappers
  import opened Errors
  import opened Items
  import opened Crud
  import JsonBin

  /** Create on an empty local collection yields exactly the collected item. */
  method CreateOnEmpty(f: Form)
    requires ValidateItem(CollectItem(f)).None?
  {
    var store := new ProjectStore(Missing, []);
    var r := store.Create(Local, f);
    assert r.Done?;
    assert ReadLocal(store.local) == [CollectItem(f)];
  }

  /** Replacing past the end fails, naming the length, and changes nothing. */
  method ReplacePastEnd(a: Item, item: Item)
  {
    var store := new ProjectStore(Value([a]), []);
    var err := store.ReplaceAt(Local, 1, item);
    assert err == Some(OutOfRange(1));
    assert store.local == Value([a]);
  }

  /** A remote replace whose PUT is refused with 403 reports Unauthorized and
      leaves both stores as they were. */
  method RefusedRemoteReplace(items: seq<Item>, item: Item)
    requires |items| > 0
  {
    var store := new ProjectStore(Missing, items);
    var res := JsonBin.Response(200, JsonBin.Envelope(JsonBin.RecordArray(items)));
    var err := store.ReplaceAt(Remote(res, 403), 0, item);
    assert err == Some(Unauthorized);
    assert store.remote == items && store.local == Missing;
  }
}
