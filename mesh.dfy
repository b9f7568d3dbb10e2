/** The layered medium: an ordered sequence of depth boundaries paired index for
    index with the optical-property records of the layers (BioMonteCarlo/mesh.py). */
module Mesh {

  datatype Option<T> = None | Some(value: T)

  /** A layer's optical properties, as the keyword arguments given to add_layer:
      the names "n", "mu_s", "mu_a", "g" are required, other names are kept as given. */
  type Properties = map<string, real>

  /** Why add_layer refuses a layer (both are a ValueError in the source). */
  datatype MeshError = BoundaryNotIncreasing | MissingProperty

  datatype Outcome = Pass | Fail(error: MeshError)

  predicate HasRequiredKeys(p: Properties)
  {
    "n" in p && "mu_s" in p && "mu_a" in p && "g" in p
  }

  predicate Sorted(s: seq<real>)
  {
    forall i, j :: 0 <= i < j < |s| ==> s[i] <= s[j]
  }

  predicate StrictlyIncreasing(s: seq<real>)
  {
    forall i, j :: 0 <= i < j < |s| ==> s[i] < s[j]
  }

  /** The shape every mesh keeps: one record per boundary, boundaries sorted, and
      every record carrying the four required properties. */
  predicate WellFormed(boundaries: seq<real>, properties: seq<Properties>)
  {
    |boundaries| == |properties| && Sorted(boundaries) &&
    forall i :: 0 <= i < |properties| ==> HasRequiredKeys(properties[i])
  }

  /** numpy's searchsorted(a, v, side='right') on a sorted array: the position at
      which v would be inserted after every element equal to it. */
  function SearchSortedRight(a: seq<real>, v: real): (k: nat)
    requires Sorted(a)
    ensures k <= |a|
    ensures forall j :: 0 <= j < k ==> a[j] <= v
    ensures forall j :: k <= j < |a| ==> v < a[j]
  {
    if |a| == 0 || v < a[0] then 0
    else
      assert Sorted(a[1..]) by {
        forall i, j | 0 <= i < j < |a[1..]| ensures a[1..][i] <= a[1..][j] {
          assert a[1..][i] == a[i + 1] && a[1..][j] == a[j + 1];
        }
      }
      1 + SearchSortedRight(a[1..], v)
  }

  /** get_layer_index: -1 outside [b[0], b[n-1]], otherwise the greatest i with
      b[i] <= z. A depth equal to the outer boundary b[n-1] gets index n-1. */
  function LayerIndex(b: seq<real>, z: real): (i: int)
    requires |b| > 0 && Sorted(b)
    ensures i == -1 <==> z < b[0] || z > b[|b| - 1]
    ensures i != -1 ==> 0 <= i < |b| && b[i] <= z && (i + 1 < |b| ==> z < b[i + 1])
    ensures i != -1 ==> forall j :: 0 <= j < |b| && b[j] <= z ==> j <= i
    ensures i == |b| - 1 ==> z == b[|b| - 1]
  {
    if z < b[0] || z > b[|b| - 1] then -1
    else SearchSortedRight(b, z) - 1
  }

  /** get_properties_at: None outside the mesh, otherwise the record of the layer
      LayerIndex finds. */
  function PropertiesAt(b: seq<real>, props: seq<Properties>, z: real): (r: Option<Properties>)
    requires |b| > 0 && WellFormed(b, props)
    ensures r.None? <==> z < b[0] || z > b[|b| - 1]
    ensures r.Some? ==> exists i :: 0 <= i < |b| && b[i] <= z && (i + 1 < |b| ==> z < b[i + 1]) && r.value == props[i]
    ensures r.Some? ==> HasRequiredKeys(r.value)
  {
    var i := LayerIndex(b, z);
    if i == -1 then None else Some(props[i])
  }

  /** The validation add_layer performs, in the order the source performs it: the
      boundary check first, then the key check. */
  function Validate(b: seq<real>, boundary: real, props: Properties): Outcome
  {
    if |b| > 0 && boundary <= b[|b| - 1] then Fail(BoundaryNotIncreasing)
    else if !HasRequiredKeys(props) then Fail(MissingProperty)
    else Pass
  }

  /** Appending a boundary above the last one keeps the boundaries strictly increasing. */
  lemma {:induction false} AppendKeepsIncreasing(b: seq<real>, x: real)
    requires StrictlyIncreasing(b)
    requires |b| == 0 || b[|b| - 1] < x
    ensures StrictlyIncreasing(b + [x])
  {
    forall i, j | 0 <= i < j < |b + [x]| ensures (b + [x])[i] < (b + [x])[j] {
      if j < |b| {
        assert (b + [x])[i] == b[i] && (b + [x])[j] == b[j];
      } else {
        assert (b + [x])[i] == b[i] <= b[|b| - 1];
      }
    }
  }

  /** A depth exactly on an interior boundary belongs to the layer that begins there. */
  lemma BoundaryStartsLayer(b: seq<real>, k: nat)
    requires StrictlyIncreasing(b) && k < |b|
    ensures LayerIndex(b, b[k]) == k
  {
  }

  class LayeredMesh {
    var boundaries: seq<real>
    var properties: seq<Properties>

    ghost predicate Valid()
      reads this
    {
      StrictlyIncreasing(boundaries) && WellFormed(boundaries, properties)
    }

    /** __init__: an empty mesh. */
    constructor ()
      ensures Valid() && boundaries == [] && properties == []
    {
      boundaries := [];
      properties := [];
    }

    /** add_layer: validate, then append the boundary and the record. A refused
        layer leaves the mesh as it was. */
    method AddLayer(boundary: real, props: Properties) returns (r: Outcome)
      requires Valid()
      modifies this
      ensures Valid()
      ensures r == Fail(BoundaryNotIncreasing) <==> |old(boundaries)| > 0 && boundary <= old(boundaries)[|old(boundaries)| - 1]
      ensures r == Fail(MissingProperty) <==> (|old(boundaries)| == 0 || old(boundaries)[|old(boundaries)| - 1] < boundary) && !HasRequiredKeys(props)
      ensures r.Pass? ==> boundaries == old(boundaries) + [boundary] && properties == old(properties) + [props]
      ensures r.Fail? ==> boundaries == old(boundaries) && properties == old(properties)
    {
      r := Validate(boundaries, boundary, props);
      if r.Pass? {
        AppendKeepsIncreasing(boundaries, boundary);
        boundaries := boundaries + [boundary];
        properties := properties + [props];
      }
    }

    /** get_layer_index on the mesh's current boundaries; an empty mesh has no b[0]. */
    function GetLayerIndex(z: real): (i: int)
      reads this
      requires Valid() && |boundaries| > 0
      ensures -1 <= i < |boundaries|
      ensures i == LayerIndex(boundaries, z)
    {
      LayerIndex(boundaries, z)
    }

    /** get_properties_at on the mesh's current layers. */
    function GetPropertiesAt(z: real): (r: Option<Properties>)
      reads this
      requires Valid() && |boundaries| > 0
      ensures r.None? <==> GetLayerIndex(z) == -1
      ensures r.Some? ==> r.value == properties[GetLayerIndex(z)]
    {
      PropertiesAt(boundaries, properties, z)
    }
  }

  /** The lookup the mesh tests expect: boundaries [0, 1.5, 3.0], depth 2.0 is in
      the second layer. */
  lemma SecondLayerExample(p0: Properties, p1: Properties, p2: Properties)
    requires HasRequiredKeys(p0) && HasRequiredKeys(p1) && HasRequiredKeys(p2)
    ensures PropertiesAt([0.0, 1.5, 3.0], [p0, p1, p2], 2.0) == Some(p1)
  {
    assert LayerIndex([0.0, 1.5, 3.0], 2.0) == 1;
  }
}
