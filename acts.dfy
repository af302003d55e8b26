/**
 * The legal act ("resolución") record shared by the bulletin PDF route and
 * the server actions, the act kinds, and the filters both use to sort acts
 * into sections.
 */
module Acts {
  import opened Wrappers

  type Id = string

  /** The kind strings stored in `tipo`. */
  const PROMULGACION: string := "PROMULGACIÓN"
  const RESOLUCION: string := "RESOLUCIÓN"
  const ORDENANZA: string := "ORDENANZA"

  type MonthNumber = m: int | 1 <= m <= 12 witness 1

  /** A calendar date as `Date.getDate()`, `getMonth() + 1` and `getFullYear()` report it. */
  datatype Fecha = Fecha(day: int, month: MonthNumber, year: int)

  /**
   * One act. An optional text that is absent (`null`, `undefined`) or empty is
   * the empty string: every use in the source tests it for truthiness.
   * `articulos` is the already parsed JSON array of article texts.
   */
  datatype Resolucion = Resolucion(
    lugar: string,
    fecha: Fecha,
    tipo: string,
    numero: int,
    anio: int,
    titulo: string,
    visto: string,
    considerando: string,
    articulos: seq<string>,
    cierre: string,
    boletinId: Option<Id>)

  /** `acts.filter(r => r.tipo === t)`. */
  function OfTipo(acts: seq<Resolucion>, t: string): (r: seq<Resolucion>)
    ensures |r| <= |acts|
    ensures forall a :: a in r <==> a in acts && a.tipo == t
  {
    if acts == [] then []
    else
      var n := |acts| - 1;
      assert acts == acts[..n] + [acts[n]];
      OfTipo(acts[..n], t) + (if acts[n].tipo == t then [acts[n]] else [])
  }

  /** Filtering keeps relative order: it distributes over concatenation. */
  lemma {:induction false} OfTipoAppend(a: seq<Resolucion>, b: seq<Resolucion>, t: string)
    ensures OfTipo(a + b, t) == OfTipo(a, t) + OfTipo(b, t)
    decreases |b|
  {
    if b == [] {
      assert a + b == a;
    } else {
      var n := |b| - 1;
      assert (a + b)[..|a + b| - 1] == a + b[..n];
      assert (a + b)[|a + b| - 1] == b[n];
      OfTipoAppend(a, b[..n], t);
      assert OfTipo(a + b, t) == OfTipo(a + b[..n], t) + (if b[n].tipo == t then [b[n]] else []);
    }
  }

  /** The number of acts of kind `t`. */
  function CountTipo(acts: seq<Resolucion>, t: string): nat {
    if acts == [] then 0
    else CountTipo(acts[..|acts| - 1], t) + (if acts[|acts| - 1].tipo == t then 1 else 0)
  }

  /** A filter holds exactly as many acts as there are of its kind. */
  lemma {:induction false} OfTipoLength(acts: seq<Resolucion>, t: string)
    ensures |OfTipo(acts, t)| == CountTipo(acts, t)
  {
    if acts != [] {
      OfTipoLength(acts[..|acts| - 1], t);
    }
  }

  /** Filtering twice by the same kind changes nothing. */
  lemma {:induction false} OfTipoTwice(acts: seq<Resolucion>, t: string)
    ensures OfTipo(OfTipo(acts, t), t) == OfTipo(acts, t)
  {
    if acts != [] {
      var n := |acts| - 1;
      OfTipoTwice(acts[..n], t);
      OfTipoAppend(OfTipo(acts[..n], t), if acts[n].tipo == t then [acts[n]] else [], t);
    }
  }

  /** Filtering by one kind and then by another leaves nothing. */
  lemma {:induction false} OfTipoOther(acts: seq<Resolucion>, t: string, u: string)
    requires t != u
    ensures OfTipo(OfTipo(acts, t), u) == []
  {
    if acts != [] {
      var n := |acts| - 1;
      OfTipoOther(acts[..n], t, u);
      OfTipoAppend(OfTipo(acts[..n], t), if acts[n].tipo == t then [acts[n]] else [], u);
    }
  }

  /** Some act of the sequence has kind `t`. */
  predicate HasTipo(acts: seq<Resolucion>, t: string) {
    exists j :: 0 <= j < |acts| && acts[j].tipo == t
  }

  /** An act of kind `t` is among the first `i + 1` acts iff it is among the first `i` or is act `i`. */
  lemma HasTipoSnoc(acts: seq<Resolucion>, a: Resolucion, t: string)
    ensures HasTipo(acts + [a], t) <==> HasTipo(acts, t) || a.tipo == t
  {
    if HasTipo(acts, t) {
      var j :| 0 <= j < |acts| && acts[j].tipo == t;
      assert (acts + [a])[j] == acts[j];
    }
    if a.tipo == t {
      assert (acts + [a])[|acts|] == a;
    }
  }

  /** The twelve upper-case Spanish month names of the PDF (`meses` and `months` alike). */
  const MONTH_NAMES: seq<string> := [
    "ENERO", "FEBRERO", "MARZO", "ABRIL", "MAYO", "JUNIO", "JULIO",
    "AGOSTO", "SEPTIEMBRE", "OCTUBRE", "NOVIEMBRE", "DICIEMBRE"]
}
