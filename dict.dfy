/** A Python dict that the hooks update in place. */
module PyDict {

  import opened Json

  class Dict {
    /** The dict's current contents. */
    var items: Object

    constructor (m: Object)
      ensures items == m
    {
      items := m;
    }

    /** `d[k] = v` */
    method Assign(k: string, v: Value)
      modifies this
      ensures items == old(items)[k := v]
    {
      items := items[k := v];
    }
  }
}
