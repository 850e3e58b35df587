/** The result record of a wave simulation (src/quantum_sim/waves/result.py):
    positions, complex amplitudes, optional times and a metadata dictionary,
    all held by reference and updated in place by callers. */
module WaveResults {

  datatype Complex = Complex(re: real, im: real)

  /** A Python `dict` from names to values: a mutable object that several
      holders may share. */
  class Metadata<V> {
    var entries: map<string, V>

    /** `dict()`. */
    constructor Empty()
      ensures entries == map[]
    {
      entries := map[];
    }

    /** A dictionary literal, such as the metadata the caller passes in. */
    constructor (entries: map<string, V>)
      ensures this.entries == entries
    {
      this.entries := entries;
    }

    /** `d[key] = value`, as callers update a record's metadata in place. */
    method Put(key: string, value: V)
      modifies this
      ensures entries == old(entries)[key := value]
    {
      entries := entries[key := value];
    }

    /** `dict.copy()`: a new dictionary with the same entries; the values
        themselves are shared, not copied. */
    method Copy() returns (d: Metadata<V>)
      ensures fresh(d) && d.entries == entries
    {
      d := new Metadata(entries);
    }
  }

  /** `np.copy`: a new array with the same elements. */
  method CopyArray<T>(a: array<T>) returns (b: array<T>)
    ensures fresh(b) && b[..] == a[..]
  {
    b := new T[a.Length](i requires 0 <= i < a.Length reads a => a[i]);
  }

  /** A null `t` stands for Python's `None`. No relation between the lengths of
      `x`, `psi` and `t` is enforced. */
  class WaveResult<V> {
    var x: array<real>
    var psi: array<Complex>
    var t: array?<real>
    var metadata: Metadata<V>

    /** The dataclass constructor stores the given objects themselves. */
    constructor (x: array<real>, psi: array<Complex>, t: array?<real>, metadata: Metadata<V>)
      ensures this.x == x && this.psi == psi && this.t == t && this.metadata == metadata
    {
      this.x, this.psi, this.t, this.metadata := x, psi, t, metadata;
    }

    /** Without a metadata argument each instance gets a new empty dictionary. */
    constructor WithDefaultMetadata(x: array<real>, psi: array<Complex>, t: array?<real>)
      ensures this.x == x && this.psi == psi && this.t == t
      ensures fresh(metadata) && metadata.entries == map[]
    {
      this.x, this.psi, this.t := x, psi, t;
      metadata := new Metadata.Empty();
    }

    /** A deep copy: equal contents in newly allocated storage, with an absent
        `t` staying absent; the original is left as it was. */
    method Copy() returns (c: WaveResult<V>)
      ensures fresh(c) && fresh(c.x) && fresh(c.psi) && fresh(c.metadata)
      ensures c.x[..] == x[..] && c.psi[..] == psi[..] && c.metadata.entries == metadata.entries
      ensures (c.t == null) == (t == null)
      ensures t != null ==> c.t != null && fresh(c.t) && c.t != c.x && c.t[..] == t[..]
      ensures unchanged(this, x, psi, metadata) && (t != null ==> unchanged(t))
    {
      var x' := CopyArray(x);
      var psi' := CopyArray(psi);
      var t': array?<real> := null;
      if t != null {
        t' := CopyArray(t);
      }
      var metadata' := metadata.Copy();
      c := new WaveResult(x', psi', t', metadata');
    }
  }

  /** Writing into a copy's arrays and metadata leaves the original untouched. */
  method MutatedCopyLeavesOriginal<V>(r: WaveResult<V>, key: string, value: V) returns (c: WaveResult<V>)
    requires 1 <= r.x.Length && 2 <= r.psi.Length
    ensures fresh(c) && c.x[..] == r.x[..][0 := 99.0] && c.psi[..] == r.psi[..][1 := Complex(2.0, 2.0)]
    ensures c.metadata.entries == r.metadata.entries[key := value]
    ensures r.x[..] == old(r.x[..]) && r.psi[..] == old(r.psi[..])
    ensures r.metadata.entries == old(r.metadata.entries)
  {
    c := r.Copy();
    c.x[0] := 99.0;
    c.psi[1] := Complex(2.0, 2.0);
    c.metadata.Put(key, value);
  }

  /** Two results built without metadata do not share a dictionary: an entry
      put into one is absent from the other. */
  method DefaultMetadataNotShared<V>(x1: array<real>, psi1: array<Complex>, x2: array<real>, psi2: array<Complex>,
                                     key: string, value: V)
    returns (a: WaveResult<V>, b: WaveResult<V>)
    ensures a.metadata != b.metadata
    ensures a.metadata.entries == map[key := value] && b.metadata.entries == map[]
  {
    a := new WaveResult.WithDefaultMetadata(x1, psi1, null);
    b := new WaveResult.WithDefaultMetadata(x2, psi2, null);
    a.metadata.Put(key, value);
  }
}
