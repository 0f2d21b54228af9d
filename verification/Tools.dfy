/** The reference external system: accounts-payable entries, idempotent on a key. */
module Tools {
  import opened Core
  import opened Machine

  function ApEntry(args: Dict): Json {
    Obj(map["vendor" := Get(args, "vendor"), "invoice_number" := Get(args, "invoice_number"),
            "amount" := Get(args, "amount"), "status" := Str("posted")])
  }

  /** The key is the idempotency key if it is set to something, else the invoice
      number if that is, else the empty text. */
  lemma KeyOfArgs(args: Dict)
    ensures "_idempotency_key" in args && !Falsy(args["_idempotency_key"]) ==> OpKey(args) == args["_idempotency_key"]
    ensures !("_idempotency_key" in args && !Falsy(args["_idempotency_key"])) ==>
              OpKey(args) == if "invoice_number" in args && !Falsy(args["invoice_number"]) then args["invoice_number"] else Str("")
  {
  }

  /** A system of record that stores one entry per key. */
  class ExternalSystem {
    var entries: map<Json, Json>

    constructor ()
      ensures entries == map[]
    {
      entries := map[];
    }

    /** A duplicate gets the original entry; a key that cannot be looked up
        raises. No entry is ever replaced. */
    method Create(key: Json, value: Json) returns (entry: Option<Json>)
      modifies this
      ensures entry.Some? <==> Hashable(key)
      ensures Hashable(key) && key !in old(entries) ==> entry == Some(value) && entries == old(entries)[key := value]
      ensures key in old(entries) ==> entries == old(entries)
      ensures Hashable(key) && key in old(entries) ==> entry == Some(old(entries)[key])
      ensures !Hashable(key) ==> entries == old(entries)
    {
      if !Hashable(key) { return None; }
      if key !in entries {
        entries := entries[key := value];
      }
      entry := Some(entries[key]);
    }

    method CreateApEntry(args: Dict) returns (entry: Option<Json>)
      modifies this
      ensures entry.Some? <==> Hashable(OpKey(args))
      ensures entry.Some? ==>
                && OpKey(args) in entries && entry.value == entries[OpKey(args)]
                && entries == old(entries)[OpKey(args) := if OpKey(args) in old(entries) then old(entries)[OpKey(args)] else ApEntry(args)]
      ensures entry.None? ==> entries == old(entries)
      ensures entry.Some? && OpKey(args) !in old(entries) ==>
                && entry.value.Obj? && entry.value.fields.Keys == {"vendor", "invoice_number", "amount", "status"}
                && entry.value.fields["vendor"] == (if "vendor" in args then args["vendor"] else Null)
                && entry.value.fields["invoice_number"] == (if "invoice_number" in args then args["invoice_number"] else Null)
                && entry.value.fields["amount"] == (if "amount" in args then args["amount"] else Null)
                && entry.value.fields["status"] == Str("posted")
    {
      entry := Create(OpKey(args), ApEntry(args));
    }
  }
}
