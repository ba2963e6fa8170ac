/** The data store of src/stores/data.stores.ts: a lazily created single
    manager holding the loaded records, or nothing. */
module DataStores {
  import opened Js

  class DataStoreManager {
    /** The `csvData` signal: the loaded records, or `null`. */
    var csvData: Option<seq<Record>>

    /** Data starts out absent. */
    constructor ()
      ensures csvData == None && !HasData()
    {
      csvData := None;
    }

    /** The derived `hasData` cell. */
    function HasData(): bool
      reads this`csvData
    {
      csvData.Some? && |csvData.value| > 0
    }

    method SetData(data: Option<seq<Record>>)
      modifies this`csvData
      ensures csvData == data
      ensures HasData() <==> data.Some? && |data.value| > 0
    {
      csvData := data;
    }

    method GetData() returns (data: Option<seq<Record>>)
      ensures data == csvData
    {
      data := csvData;
    }

    method Clear()
      modifies this`csvData
      ensures csvData == None && !HasData()
    {
      csvData := None;
    }
  }

  /** The static side of `DataStoreManager`: its one `instance` slot. */
  class DataStoreManagerStatic {
    var instance: DataStoreManager?

    constructor ()
      ensures instance == null
    {
      instance := null;
    }

    /** Creates the manager on first use; afterwards hands out that same
        object. */
    method GetInstance() returns (m: DataStoreManager)
      modifies this`instance
      ensures old(instance) != null ==> m == old(instance)
      ensures old(instance) == null ==> fresh(m) && m.csvData == None
      ensures instance == m
    {
      if instance == null {
        instance := new DataStoreManager();
      }
      m := instance;
    }
  }

  /** Two lookups give the same manager, so data set through one is read
      through the other. */
  method SharedInstance(statics: DataStoreManagerStatic, data: Option<seq<Record>>)
      returns (a: DataStoreManager, b: DataStoreManager, read: Option<seq<Record>>)
    modifies statics`instance, statics.instance
    ensures a == b
    ensures read == data
  {
    a := statics.GetInstance();
    a.SetData(data);
    b := statics.GetInstance();
    read := b.GetData();
  }
}
