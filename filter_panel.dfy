/**
 * The catalog filter panel: the filter record and the pure transitions its
 * checkboxes and buttons apply to it.  Each handler builds a new record from
 * the old one; only the field it names changes.
 */
module FilterPanel {
  import Seqs

  datatype Availability = Availability(inmediata: bool, encargo: bool)

  /** `FilterState`: two availability flags, the two price bounds as typed, and seven tag lists. */
  datatype FilterState = FilterState(
    disponibilidad: Availability,
    precioMin: string,
    precioMax: string,
    tipoMueble: seq<string>,
    tamanoSofa: seq<string>,
    materialTela: seq<string>,
    formaMesa: seq<string>,
    material: seq<string>,
    medidaCama: seq<string>,
    funcionalidad: seq<string>)

  /** The availability flags: the `"inmediata" | "encargo"` key of `handleDisponibilidadChange`. */
  datatype AvailabilityKey = Inmediata | Encargo

  /** The keys of `FilterState` that hold a tag list, as passed to `handleArrayFilterChange`. */
  datatype ListKey = TipoMueble | TamanoSofa | MaterialTela | FormaMesa | Material | MedidaCama | Funcionalidad

  /** `localFilters[key]`. */
  function Tags(f: FilterState, key: ListKey): seq<string> {
    match key
    case TipoMueble => f.tipoMueble
    case TamanoSofa => f.tamanoSofa
    case MaterialTela => f.materialTela
    case FormaMesa => f.formaMesa
    case Material => f.material
    case MedidaCama => f.medidaCama
    case Funcionalidad => f.funcionalidad
  }

  /** `{ ...f, [key]: tags }`. */
  function WithTags(f: FilterState, key: ListKey, tags: seq<string>): (g: FilterState)
    ensures Tags(g, key) == tags
    ensures forall other :: other != key ==> Tags(g, other) == Tags(f, other)
    ensures g.disponibilidad == f.disponibilidad && g.precioMin == f.precioMin && g.precioMax == f.precioMax
  {
    match key
    case TipoMueble => f.(tipoMueble := tags)
    case TamanoSofa => f.(tamanoSofa := tags)
    case MaterialTela => f.(materialTela := tags)
    case FormaMesa => f.(formaMesa := tags)
    case Material => f.(material := tags)
    case MedidaCama => f.(medidaCama := tags)
    case Funcionalidad => f.(funcionalidad := tags)
  }

  /** Two records that agree on the flags, the bounds and every tag list are the same record. */
  lemma Extensionality(f: FilterState, g: FilterState)
    requires f.disponibilidad == g.disponibilidad && f.precioMin == g.precioMin && f.precioMax == g.precioMax
    requires forall key :: Tags(f, key) == Tags(g, key)
    ensures f == g
  {
    assert Tags(f, TipoMueble) == Tags(g, TipoMueble);
    assert Tags(f, TamanoSofa) == Tags(g, TamanoSofa);
    assert Tags(f, MaterialTela) == Tags(g, MaterialTela);
    assert Tags(f, FormaMesa) == Tags(g, FormaMesa);
    assert Tags(f, Material) == Tags(g, Material);
    assert Tags(f, MedidaCama) == Tags(g, MedidaCama);
    assert Tags(f, Funcionalidad) == Tags(g, Funcionalidad);
  }

  /** The predicate of `list.filter((v) => v !== value)`. */
  function Differs(value: string): string -> bool {
    v => v != value
  }

  /** `list.filter((v) => v !== value)`: every occurrence of `value` removed. */
  function Without(list: seq<string>, value: string): seq<string> {
    Seqs.Filter(list, Differs(value))
  }

  /** `handleArrayFilterChange(key, value, checked)`. */
  function ArrayFilterChange(f: FilterState, key: ListKey, value: string, checked: bool): FilterState {
    var current := Tags(f, key);
    WithTags(f, key, if checked then current + [value] else Without(current, value))
  }

  /** `handleTipoMuebleChange(value, checked)`, written out on its own field. */
  function TipoMuebleChange(f: FilterState, value: string, checked: bool): FilterState {
    f.(tipoMueble := if checked then f.tipoMueble + [value] else Seqs.Filter(f.tipoMueble, Differs(value)))
  }

  /** `handleDisponibilidadChange(key, checked)`. */
  function DisponibilidadChange(f: FilterState, key: AvailabilityKey, checked: bool): FilterState {
    match key
    case Inmediata => f.(disponibilidad := f.disponibilidad.(inmediata := checked))
    case Encargo => f.(disponibilidad := f.disponibilidad.(encargo := checked))
  }

  /** The record `handleReset` installs (also the catalog page's `initialFilters`). */
  const ResetFilters := FilterState(Availability(false, false), "", "", [], [], [], [], [], [], [])

  /** `handleReset()`: the record handed to both the panel and the page. */
  function Reset(f: FilterState): (g: FilterState)
    ensures !g.disponibilidad.inmediata && !g.disponibilidad.encargo
    ensures g.precioMin == "" && g.precioMax == ""
    ensures forall key :: Tags(g, key) == []
  {
    ResetFilters
  }

  // ---------------------------------------------------------------- properties

  /** Checking a value appends it at the end of its list, even if it is already there. */
  lemma CheckAppends(f: FilterState, key: ListKey, value: string)
    ensures Tags(ArrayFilterChange(f, key, value, true), key) == Tags(f, key) + [value]
    ensures |Tags(ArrayFilterChange(f, key, value, true), key)| == |Tags(f, key)| + 1
  {
  }

  /**
   * Unchecking a value removes every occurrence of it and keeps the remaining
   * values, in their order: the new list is a subsequence of the old one that
   * holds each other value exactly where the old list did.
   */
  lemma UncheckRemovesAll(list: seq<string>, value: string)
    ensures value !in Without(list, value)
    ensures forall v :: v != value ==> multiset(Without(list, value))[v] == multiset(list)[v]
    ensures Seqs.IsSubsequence(Without(list, value), list)
  {
    var w := Without(list, value);
    forall i | 0 <= i < |w| ensures w[i] != value {
      assert Differs(value)(w[i]);
    }
    Seqs.FilterIsSubsequence(list, Differs(value));
    UncheckKeepsCounts(list, value);
  }

  /** Unchecking keeps every other value as often as it was listed. */
  lemma {:induction false} UncheckKeepsCounts(list: seq<string>, value: string)
    ensures forall v :: v != value ==> multiset(Without(list, value))[v] == multiset(list)[v]
  {
    if list != [] {
      var rest := Without(list[1..], value);
      UncheckKeepsCounts(list[1..], value);
      assert multiset(list) == multiset([list[0]]) + multiset(list[1..]) by {
        assert list == [list[0]] + list[1..];
      }
      if list[0] == value {
        assert Without(list, value) == rest;
      } else {
        assert Without(list, value) == [list[0]] + rest;
        assert multiset(Without(list, value)) == multiset([list[0]]) + multiset(rest);
      }
    }
  }

  /** The list of `key` after unchecking: every occurrence of `value` gone, the rest kept in order. */
  lemma UncheckOnKey(f: FilterState, key: ListKey, value: string)
    ensures Tags(ArrayFilterChange(f, key, value, false), key) == Without(Tags(f, key), value)
    ensures value !in Tags(ArrayFilterChange(f, key, value, false), key)
  {
    UncheckRemovesAll(Tags(f, key), value);
  }

  /** A checkbox change touches only its own list: the flags, the bounds and the other lists stay the same. */
  lemma ArrayChangeFrame(f: FilterState, key: ListKey, value: string, checked: bool, other: ListKey)
    requires other != key
    ensures Tags(ArrayFilterChange(f, key, value, checked), other) == Tags(f, other)
    ensures ArrayFilterChange(f, key, value, checked).disponibilidad == f.disponibilidad
    ensures ArrayFilterChange(f, key, value, checked).precioMin == f.precioMin
    ensures ArrayFilterChange(f, key, value, checked).precioMax == f.precioMax
  {
  }

  /** `handleTipoMuebleChange` is `handleArrayFilterChange` on the furniture-type list. */
  lemma TipoMuebleIsArrayChange(f: FilterState, value: string, checked: bool)
    ensures TipoMuebleChange(f, value, checked) == ArrayFilterChange(f, TipoMueble, value, checked)
  {
  }

  /** Checking and then unchecking a value the list did not hold gives back the original record. */
  lemma {:induction false} CheckThenUncheck(f: FilterState, key: ListKey, value: string)
    requires value !in Tags(f, key)
    ensures ArrayFilterChange(ArrayFilterChange(f, key, value, true), key, value, false) == f
  {
    var list := Tags(f, key);
    Seqs.FilterConcat(list, [value], Differs(value));
    assert Without([value], value) == [];
    forall i | 0 <= i < |list| ensures Differs(value)(list[i]) {
      assert list[i] in list;
    }
    Seqs.FilterKeepsAll(list, Differs(value));
    var g := ArrayFilterChange(ArrayFilterChange(f, key, value, true), key, value, false);
    Extensionality(g, f);
  }

  /** Unchecking a value the list does not hold changes nothing. */
  lemma UncheckAbsentIsNoOp(f: FilterState, key: ListKey, value: string)
    requires value !in Tags(f, key)
    ensures ArrayFilterChange(f, key, value, false) == f
  {
    var list := Tags(f, key);
    forall i | 0 <= i < |list| ensures Differs(value)(list[i]) {
      assert list[i] in list;
    }
    Seqs.FilterKeepsAll(list, Differs(value));
    Extensionality(ArrayFilterChange(f, key, value, false), f);
  }

  /** An availability change sets its own flag and nothing else. */
  lemma DisponibilidadChangeSetsFlag(f: FilterState, key: AvailabilityKey, checked: bool)
    ensures var g := DisponibilidadChange(f, key, checked);
      && (key == Inmediata ==> g.disponibilidad == Availability(checked, f.disponibilidad.encargo))
      && (key == Encargo ==> g.disponibilidad == Availability(f.disponibilidad.inmediata, checked))
      && g.precioMin == f.precioMin && g.precioMax == f.precioMax
      && forall list :: Tags(g, list) == Tags(f, list)
  {
  }

  /** Setting a flag to the value it already has changes nothing. */
  lemma DisponibilidadChangeIdempotent(f: FilterState, key: AvailabilityKey, checked: bool)
    ensures DisponibilidadChange(DisponibilidadChange(f, key, checked), key, checked) == DisponibilidadChange(f, key, checked)
  {
  }
}
