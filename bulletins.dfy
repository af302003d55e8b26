/**
 * The bulletin ("boletín") lifecycle of the server actions: the bulletin and
 * act tables as maps updated in place, the guards that turn a closed bulletin
 * into an archive, the grouping of the bulletin list by year and the split of
 * one bulletin's acts by kind.
 */
module Bulletins {
  import opened Wrappers
  import opened Strings
  import opened Acts
  import Classify

  // ---------------------------------------------------------------- month names

  /** `MESES`: index 0 is the empty string, 1..12 are the Spanish month names. */
  const MESES: seq<string> := [
    "", "Enero", "Febrero", "Marzo", "Abril", "Mayo", "Junio", "Julio",
    "Agosto", "Septiembre", "Octubre", "Noviembre", "Diciembre"]

  /** `MESES[mes]`; `None` is the `undefined` an index outside the array reads. */
  function MesNombre(mes: int): (r: Option<string>)
    ensures r.Some? <==> 0 <= mes <= 12
    ensures mes == 0 ==> r == Some("")
    ensures 1 <= mes <= 12 ==> r.Some? && |r.value| >= 4
  {
    if 0 <= mes < |MESES| then Some(MESES[mes]) else None
  }

  /** The bulletin month names are the PDF's upper-case names in title case. */
  lemma MesNombreUpper(mes: int)
    requires 1 <= mes <= 12
    ensures MesNombre(mes).Some? && ToUpper(MesNombre(mes).value) == MONTH_NAMES[mes - 1]
  {
    if mes <= 6 {
      UpperFirstHalf(mes);
    } else {
      UpperSecondHalf(mes);
    }
  }

  /** January to June. */
  lemma UpperFirstHalf(mes: int)
    requires 1 <= mes <= 6
    ensures MesNombre(mes).Some? && ToUpper(MesNombre(mes).value) == MONTH_NAMES[mes - 1]
  {
    if mes == 1 {
      assert MesNombre(mes).value == "Enero" && MONTH_NAMES[mes - 1] == "ENERO";
      UpperTitle("Enero", "ENERO");
    } else if mes == 2 {
      assert MesNombre(mes).value == "Febrero" && MONTH_NAMES[mes - 1] == "FEBRERO";
      UpperTitle("Febrero", "FEBRERO");
    } else if mes == 3 {
      assert MesNombre(mes).value == "Marzo" && MONTH_NAMES[mes - 1] == "MARZO";
      UpperTitle("Marzo", "MARZO");
    } else if mes == 4 {
      assert MesNombre(mes).value == "Abril" && MONTH_NAMES[mes - 1] == "ABRIL";
      UpperTitle("Abril", "ABRIL");
    } else if mes == 5 {
      assert MesNombre(mes).value == "Mayo" && MONTH_NAMES[mes - 1] == "MAYO";
      UpperTitle("Mayo", "MAYO");
    } else {
      assert MesNombre(mes).value == "Junio" && MONTH_NAMES[mes - 1] == "JUNIO";
      UpperTitle("Junio", "JUNIO");
    }
  }

  /** July to December. */
  lemma UpperSecondHalf(mes: int)
    requires 7 <= mes <= 12
    ensures MesNombre(mes).Some? && ToUpper(MesNombre(mes).value) == MONTH_NAMES[mes - 1]
  {
    if mes == 7 {
      assert MesNombre(mes).value == "Julio" && MONTH_NAMES[mes - 1] == "JULIO";
      UpperTitle("Julio", "JULIO");
    } else if mes == 8 {
      assert MesNombre(mes).value == "Agosto" && MONTH_NAMES[mes - 1] == "AGOSTO";
      UpperTitle("Agosto", "AGOSTO");
    } else if mes == 9 {
      assert MesNombre(mes).value == "Septiembre" && MONTH_NAMES[mes - 1] == "SEPTIEMBRE";
      UpperTitle("Septiembre", "SEPTIEMBRE");
    } else if mes == 10 {
      assert MesNombre(mes).value == "Octubre" && MONTH_NAMES[mes - 1] == "OCTUBRE";
      UpperTitle("Octubre", "OCTUBRE");
    } else if mes == 11 {
      assert MesNombre(mes).value == "Noviembre" && MONTH_NAMES[mes - 1] == "NOVIEMBRE";
      UpperTitle("Noviembre", "NOVIEMBRE");
    } else {
      assert MesNombre(mes).value == "Diciembre" && MONTH_NAMES[mes - 1] == "DICIEMBRE";
      UpperTitle("Diciembre", "DICIEMBRE");
    }
  }

  /** Upper-casing a word of ASCII letters raises each lower-case letter by 32. */
  lemma {:induction false} UpperTitle(s: string, u: string)
    requires |s| == |u|
    requires forall i :: 0 <= i < |s| ==>
      ('A' <= s[i] <= 'Z' && u[i] == s[i]) || ('a' <= s[i] <= 'z' && u[i] as int == s[i] as int - 32)
    ensures ToUpper(s) == u
  {
    if s != [] {
      UpperTitle(s[1..], u[1..]);
      assert u == [u[0]] + u[1..];
    }
  }

  /**
   * The month as the error text interpolates it: for 1..12 the month name the
   * PDF prints in upper case, for 0 the empty first entry, `undefined` outside
   * the array.
   */
  function MesTexto(mes: int): (r: string)
    ensures 1 <= mes <= 12 ==> ToUpper(r) == MONTH_NAMES[mes - 1]
    ensures mes == 0 ==> r == []
    ensures !(0 <= mes <= 12) ==> r == "undefined"
  {
    match MesNombre(mes)
    case Some(n) =>
      if 1 <= mes <= 12 then MesNombreUpper(mes); n else n
    case None => "undefined"
  }

  /**
   * The PDF cover's month label is the bulletin list's month name in upper
   * case, and so is the duplicate error's; for a month outside 0..12 all three
   * print "undefined", and for month 0 the cover prints "undefined" where the
   * list and the error print nothing.
   */
  lemma CoverMonthIsListMonth(mes: int)
    ensures 1 <= mes <= 12 ==>
              && MesNombre(mes).Some?
              && Classify.MonthLabel(mes) == ToUpper(MesNombre(mes).value)
              && Classify.MonthLabel(mes) == ToUpper(MesTexto(mes))
    ensures !(0 <= mes <= 12) ==> MesNombre(mes).None? && Classify.MonthLabel(mes) == MesTexto(mes) == "undefined"
    ensures mes == 0 ==> MesNombre(mes) == Some([]) && Classify.MonthLabel(mes) == "undefined" && MesTexto(mes) == []
  {
    if 1 <= mes <= 12 {
      MesNombreUpper(mes);
    }
  }

  // ---------------------------------------------------------------- rows

  /** A row of `boletines`; the id is its key in the table. A null `cerrado` reads as false. */
  datatype Boletin = Boletin(numero: int, anio: int, mes: int, activo: bool, cerrado: bool)

  /** The ids of the acts filed under bulletin `id`. */
  function ActsOf(rs: map<Id, Resolucion>, id: Id): set<Id> {
    set k | k in rs && rs[k].boletinId == Some(id)
  }

  /** Whether an act's bulletin exists and is closed (`boletin?.cerrado`). */
  predicate ClosedIn(bs: map<Id, Boletin>, b: Option<Id>) {
    b.Some? && b.value in bs && bs[b.value].cerrado
  }

  /** The archive: every act filed under a closed bulletin. */
  function Archive(bs: map<Id, Boletin>, rs: map<Id, Resolucion>): map<Id, Resolucion> {
    map k | k in rs && ClosedIn(bs, rs[k].boletinId) :: rs[k]
  }

  /** At most one bulletin is active. */
  predicate AtMostOneActive(bs: map<Id, Boletin>) {
    forall a, b :: a in bs && b in bs && bs[a].activo && bs[b].activo ==> a == b
  }

  /** No two bulletins share a year and month. */
  predicate UniqueYearMonth(bs: map<Id, Boletin>) {
    forall a, b :: a in bs && b in bs && bs[a].anio == bs[b].anio && bs[a].mes == bs[b].mes ==> a == b
  }

  /** A set whose elements are all equal has at most one element. */
  lemma AtMostOneElement<T>(s: set<T>)
    requires forall a, b :: a in s && b in s ==> a == b
    ensures |s| <= 1
  {
    if s != {} {
      var x :| x in s;
      assert s == {x};
    }
  }

  /** A set of size one is the singleton of any of its elements. */
  lemma SingletonOf<T>(s: set<T>, x: T)
    requires x in s && |s| == 1
    ensures s == {x}
  {
    var rest := s - {x};
    assert |rest| == 0;
  }

  // ---------------------------------------------------------------- listing

  /** A bulletin as the list shows it: the row with its month name and act count. */
  datatype Summary = Summary(
    id: Id, numero: int, anio: int, mes: int, mesNombre: Option<string>,
    activo: bool, cerrado: bool, cantidadResoluciones: nat)

  /** The `map` step of `getBoletines` for one row and its act count. */
  function Summarize(id: Id, b: Boletin, count: nat): Summary {
    Summary(id, b.numero, b.anio, b.mes, MesNombre(b.mes), b.activo, b.cerrado, count)
  }

  /** The bulletins of year `y`, in list order (a reference for the grouping). */
  function OfYear(ss: seq<Summary>, y: int): (r: seq<Summary>)
    ensures forall s :: s in r <==> s in ss && s.anio == y
  {
    if ss == [] then []
    else
      var n := |ss| - 1;
      assert ss == ss[..n] + [ss[n]];
      OfYear(ss[..n], y) + (if ss[n].anio == y then [ss[n]] else [])
  }

  /** Some bulletin of the list belongs to year `y`. */
  predicate HasYear(ss: seq<Summary>, y: int) {
    exists j :: 0 <= j < |ss| && ss[j].anio == y
  }

  /** A year with bulletins in its filter has bulletins in the list. */
  lemma OfYearPresent(ss: seq<Summary>, y: int)
    ensures OfYear(ss, y) != [] ==> HasYear(ss, y)
  {
    if OfYear(ss, y) != [] {
      var s := OfYear(ss, y)[0];
      assert s in ss;
      var j :| 0 <= j < |ss| && ss[j] == s;
      assert ss[j].anio == y;
    }
  }

  /** The `reduce` of `getBoletines`: a bucket per year, each filled in list order. */
  function GroupByYear(ss: seq<Summary>): map<int, seq<Summary>> {
    if ss == [] then map[]
    else
      var n := |ss| - 1;
      var g := GroupByYear(ss[..n]);
      var y := ss[n].anio;
      g[y := (if y in g then g[y] else []) + [ss[n]]]
  }

  /**
   * The buckets are exactly the years present, and each bucket is the list
   * filtered by its year: every bulletin lands in its own year's bucket only,
   * and each bucket keeps the list order.
   */
  lemma {:induction false} GroupByYearBuckets(ss: seq<Summary>)
    ensures forall y :: y in GroupByYear(ss) <==> HasYear(ss, y)
    ensures forall y :: y in GroupByYear(ss) ==> GroupByYear(ss)[y] == OfYear(ss, y)
  {
    if ss != [] {
      var n := |ss| - 1;
      var p := ss[..n];
      assert ss == p + [ss[n]];
      GroupByYearBuckets(p);
      forall y | !HasYear(p, y) ensures OfYear(p, y) == [] {
        OfYearPresent(p, y);
      }
      forall y ensures HasYear(ss, y) <==> HasYear(p, y) || ss[n].anio == y {
        if HasYear(p, y) {
          var j :| 0 <= j < |p| && p[j].anio == y;
          assert ss[j] == p[j];
        }
        if HasYear(ss, y) && !HasYear(p, y) {
          var j :| 0 <= j < |ss| && ss[j].anio == y;
          assert j == n;
        }
      }
    }
  }

  /** Each bulletin of the list is in its own year's bucket and in no other. */
  lemma GroupByYearPlacement(ss: seq<Summary>, i: int)
    requires 0 <= i < |ss|
    ensures ss[i].anio in GroupByYear(ss) && ss[i] in GroupByYear(ss)[ss[i].anio]
    ensures forall y :: y in GroupByYear(ss) && ss[i] in GroupByYear(ss)[y] ==> y == ss[i].anio
  {
    GroupByYearBuckets(ss);
    assert HasYear(ss, ss[i].anio);
  }

  /** A row of the list query: the bulletin with the count of its acts. */
  datatype Row = Row(id: Id, boletin: Boletin, count: nat)

  /** What `getBoletines` returns: the list and the same bulletins grouped by year. */
  datatype Listing = Listing(boletines: seq<Summary>, boletinesPorAnio: map<int, seq<Summary>>)

  /**
   * `getBoletines`; `fetched` is the query result in the order the query
   * sorted it, `None` when the query failed.
   */
  function GetBoletines(fetched: Option<seq<Row>>): (r: Listing)
    ensures fetched.None? ==> r.boletines == [] && r.boletinesPorAnio == map[]
    ensures fetched.Some? ==> |r.boletines| == |fetched.value|
    ensures fetched.Some? ==> forall i :: 0 <= i < |fetched.value| ==>
      var row, s := fetched.value[i], r.boletines[i];
      s.id == row.id && s.numero == row.boletin.numero && s.anio == row.boletin.anio
      && s.mes == row.boletin.mes && s.mesNombre == MesNombre(row.boletin.mes)
      && s.activo == row.boletin.activo && s.cerrado == row.boletin.cerrado
      && s.cantidadResoluciones == row.count
    ensures forall y :: y in r.boletinesPorAnio <==> HasYear(r.boletines, y)
    ensures forall y :: y in r.boletinesPorAnio ==> r.boletinesPorAnio[y] == OfYear(r.boletines, y)
  {
    if fetched.None? then Listing([], map[])
    else
      var rows := fetched.value;
      var ss := seq(|rows|, i requires 0 <= i < |rows| => Summarize(rows[i].id, rows[i].boletin, rows[i].count));
      GroupByYearBuckets(ss);
      Listing(ss, GroupByYear(ss))
  }

  // ---------------------------------------------------------------- one bulletin

  /** `getBoletin`: the row with its acts split by kind, and the count of each kind. */
  datatype Detail = Detail(
    id: Id, numero: int, anio: int, mes: int, mesNombre: Option<string>,
    activo: bool, cerrado: bool,
    resoluciones: seq<Resolucion>, promulgaciones: seq<Resolucion>, ordenanzas: seq<Resolucion>,
    totalPromulgaciones: nat, totalResoluciones: nat, totalOrdenanzas: nat)

  /**
   * `getBoletin(id)`: `None` (null) when the bulletin is missing. `fetched` is
   * what the act query returned, `None` when it failed, which leaves all three
   * lists empty.
   */
  function GetBoletin(bs: map<Id, Boletin>, id: Id, fetched: Option<seq<Resolucion>>): (r: Option<Detail>)
    ensures r.None? <==> id !in bs
    ensures r.Some? ==> (r.value.id == id && r.value.anio == bs[id].anio && r.value.mes == bs[id].mes
      && r.value.numero == bs[id].numero && r.value.activo == bs[id].activo
      && r.value.cerrado == bs[id].cerrado && r.value.mesNombre == MesNombre(bs[id].mes))
  {
    if id !in bs then None
    else
      var b := bs[id];
      var acts := if fetched.Some? then fetched.value else [];
      var o, p, s := OfTipo(acts, ORDENANZA), OfTipo(acts, PROMULGACION), OfTipo(acts, RESOLUCION);
      Some(Detail(id, b.numero, b.anio, b.mes, MesNombre(b.mes), b.activo, b.cerrado,
                  s, p, o, |p|, |s|, |o|))
  }

  /**
   * The three lists are the acts of each kind in query order, each total is
   * the number of acts of its kind, and no act is in two lists.
   */
  lemma GetBoletinPartition(bs: map<Id, Boletin>, id: Id, acts: seq<Resolucion>)
    requires id in bs
    ensures var d := GetBoletin(bs, id, Some(acts)).value;
      && d.ordenanzas == OfTipo(acts, ORDENANZA)
      && d.promulgaciones == OfTipo(acts, PROMULGACION)
      && d.resoluciones == OfTipo(acts, RESOLUCION)
      && d.totalOrdenanzas == CountTipo(acts, ORDENANZA)
      && d.totalPromulgaciones == CountTipo(acts, PROMULGACION)
      && d.totalResoluciones == CountTipo(acts, RESOLUCION)
      && (forall a :: a in d.ordenanzas ==> a !in d.promulgaciones && a !in d.resoluciones)
      && (forall a :: a in d.promulgaciones ==> a !in d.resoluciones)
  {
    OfTipoLength(acts, ORDENANZA);
    OfTipoLength(acts, PROMULGACION);
    OfTipoLength(acts, RESOLUCION);
  }

  /** The three counts add up to the number of acts exactly when every act has one of the three kinds. */
  lemma {:induction false} CountKinds(acts: seq<Resolucion>)
    ensures CountTipo(acts, ORDENANZA) + CountTipo(acts, PROMULGACION) + CountTipo(acts, RESOLUCION) <= |acts|
    ensures CountTipo(acts, ORDENANZA) + CountTipo(acts, PROMULGACION) + CountTipo(acts, RESOLUCION) == |acts|
      <==> forall a :: a in acts ==> a.tipo in {ORDENANZA, PROMULGACION, RESOLUCION}
  {
    if acts != [] {
      var n := |acts| - 1;
      var p := acts[..n];
      assert acts == p + [acts[n]];
      CountKinds(p);
      if CountTipo(p, ORDENANZA) + CountTipo(p, PROMULGACION) + CountTipo(p, RESOLUCION) < |p| {
        var a :| a in p && a.tipo !in {ORDENANZA, PROMULGACION, RESOLUCION};
        assert a in acts;
      }
    }
  }

  // ---------------------------------------------------------------- the tables

  const YA_EXISTE: string := "Ya existe un boletín para "
  const ERROR_CREAR_BOLETIN: string := "Error al crear boletín"
  const NO_ENCONTRADO: string := "Boletín no encontrado"
  const ACTIVO_NO_SE_CIERRA: string := "No se puede cerrar un boletín activo. Primero desactívelo."
  const YA_CERRADO: string := "El boletín ya está cerrado"
  const CERRADO_NO_SE_ELIMINA: string := "No se puede eliminar un boletín cerrado. El boletín está archivado."
  const CON_RESOLUCIONES: string := "No se puede eliminar un boletín con resoluciones. Primero elimine las resoluciones."
  const CERRADO_NO_AGREGA: string := "No se pueden agregar resoluciones a un boletín cerrado."
  const ERROR_CREAR_RESOLUCION: string := "Error al crear resolución"
  const CERRADO_NO_EDITA: string := "No se pueden editar resoluciones de un boletín cerrado."
  const CERRADO_NO_ELIMINA: string := "No se pueden eliminar resoluciones de un boletín cerrado."

  /** The error of a create for a month that already has its bulletin: the month name, then the year. */
  function Duplicado(anio: int, mes: int): (r: string)
    ensures |r| == |YA_EXISTE| + |MesTexto(mes)| + 1 + |IntToString(anio)|
    ensures r[..|YA_EXISTE|] == YA_EXISTE
    ensures r[|YA_EXISTE|..|YA_EXISTE| + |MesTexto(mes)|] == MesTexto(mes)
    ensures ParseInt(r[|r| - |IntToString(anio)|..]) == anio
  {
    var year := IntToString(anio);
    ConcatSlices(YA_EXISTE, MesTexto(mes), " ", year);
    IntToStringRoundTrip(anio);
    YA_EXISTE + MesTexto(mes) + " " + year
  }

  /** The ids of the active bulletins. */
  function ActiveIds(bs: map<Id, Boletin>): set<Id> {
    set k | k in bs && bs[k].activo
  }

  /** With at most one active bulletin, a lookup that wants exactly one finds it whenever one exists. */
  lemma SingleActive(bs: map<Id, Boletin>)
    requires AtMostOneActive(bs)
    ensures |ActiveIds(bs)| <= 1
  {
    AtMostOneElement(ActiveIds(bs));
  }

  /** The ids of the bulletins of year `anio` and month `mes`. */
  function SameMonth(bs: map<Id, Boletin>, anio: int, mes: int): set<Id> {
    set k | k in bs && bs[k].anio == anio && bs[k].mes == mes
  }

  /** With one bulletin per month, a lookup that wants exactly one finds it whenever one exists. */
  lemma SingleMonth(bs: map<Id, Boletin>, anio: int, mes: int)
    requires UniqueYearMonth(bs)
    ensures |SameMonth(bs, anio, mes)| <= 1
  {
    AtMostOneElement(SameMonth(bs, anio, mes));
  }

  /** `update({ activo: false }).eq("activo", true)`: no bulletin is active afterwards. */
  function Deactivated(bs: map<Id, Boletin>): (r: map<Id, Boletin>)
    ensures r.Keys == bs.Keys && ActiveIds(r) == {}
    ensures forall k :: k in r ==> r[k] == bs[k].(activo := false)
  {
    map k | k in bs :: bs[k].(activo := false)
  }

  /** Bulletins closed before are still there and still closed. */
  predicate ClosedKept(before: map<Id, Boletin>, after: map<Id, Boletin>) {
    forall k :: k in before && before[k].cerrado ==> k in after && after[k].cerrado
  }

  /** The archive depends only on which bulletins are closed. */
  lemma ArchiveSameClosed(bs0: map<Id, Boletin>, bs1: map<Id, Boletin>, rs: map<Id, Resolucion>)
    requires forall k :: (k in bs0 && bs0[k].cerrado) <==> (k in bs1 && bs1[k].cerrado)
    ensures Archive(bs1, rs) == Archive(bs0, rs)
  {
    assert forall k :: ClosedIn(bs0, Some(k)) <==> ClosedIn(bs1, Some(k));
    assert forall b :: ClosedIn(bs0, b) <==> ClosedIn(bs1, b);
  }

  /**
   * Creating a bulletin for a month without one, under a fresh key, keeps one
   * bulletin per month and at most one active bulletin.
   */
  lemma CreateKeepsValid(bs: map<Id, Boletin>, id: Id, row: Boletin)
    requires AtMostOneActive(bs) && UniqueYearMonth(bs)
    requires |SameMonth(bs, row.anio, row.mes)| != 1 && id !in bs
    ensures !row.activo ==> AtMostOneActive(bs[id := row]) && UniqueYearMonth(bs[id := row])
    ensures AtMostOneActive(Deactivated(bs)[id := row]) && UniqueYearMonth(Deactivated(bs)[id := row])
  {
    SingleMonth(bs, row.anio, row.mes);
    assert SameMonth(bs, row.anio, row.mes) == {};
    var d := Deactivated(bs);
    assert forall k :: k in d && d[k].anio == row.anio && d[k].mes == row.mes ==> k in SameMonth(bs, row.anio, row.mes);
  }

  /** After deactivating every bulletin, an active new row is the only active bulletin. */
  lemma CreateActive(bs: map<Id, Boletin>, id: Id, row: Boletin)
    requires row.activo
    ensures ActiveIds(Deactivated(bs)[id := row]) == {id}
  {
    var d := Deactivated(bs)[id := row];
    assert forall k :: k in d && d[k].activo ==> k == id;
  }

  /** The bulletin table and the act table, updated in place by the server actions. */
  class Store {
    var boletines: map<Id, Boletin>
    var resoluciones: map<Id, Resolucion>

    /** One active bulletin at most and one bulletin per month. */
    predicate Valid()
      reads this
    {
      AtMostOneActive(boletines) && UniqueYearMonth(boletines)
    }

    constructor ()
      ensures boletines == map[] && resoluciones == map[] && Valid()
    {
      boletines := map[];
      resoluciones := map[];
    }

    /**
     * `crearBoletin`. The existence check wants exactly one row of that month;
     * `id` is the generated key, and an insert whose key is taken fails after
     * the other bulletins were already deactivated.
     */
    method CrearBoletin(id: Id, numero: int, anio: int, mes: int, activo: bool) returns (r: Outcome<string>)
      modifies this
      ensures resoluciones == old(resoluciones)
      ensures |SameMonth(old(boletines), anio, mes)| == 1 ==>
        r == Fail(Duplicado(anio, mes)) && boletines == old(boletines)
      ensures |SameMonth(old(boletines), anio, mes)| != 1 && id in old(boletines) ==>
        r == Fail(ERROR_CREAR_BOLETIN) && boletines == (if activo then Deactivated(old(boletines)) else old(boletines))
      ensures |SameMonth(old(boletines), anio, mes)| != 1 && id !in old(boletines) ==>
        r == Pass && boletines == (if activo then Deactivated(old(boletines)) else old(boletines))[id := Boletin(numero, anio, mes, activo, false)]
      ensures r == Pass && activo ==> ActiveIds(boletines) == {id}
      ensures old(Valid()) ==> Valid()
      ensures ClosedKept(old(boletines), boletines)
      ensures Archive(boletines, resoluciones) == old(Archive(boletines, resoluciones))
    {
      if |SameMonth(boletines, anio, mes)| == 1 {
        return Fail(Duplicado(anio, mes));
      }
      ghost var b0 := boletines;
      if activo {
        boletines := Deactivated(boletines);
      }
      if id in boletines {
        ArchiveSameClosed(old(boletines), boletines, resoluciones);
        return Fail(ERROR_CREAR_BOLETIN);
      }
      boletines := boletines[id := Boletin(numero, anio, mes, activo, false)];
      if AtMostOneActive(b0) && UniqueYearMonth(b0) {
        CreateKeepsValid(b0, id, Boletin(numero, anio, mes, activo, false));
      }
      if activo {
        CreateActive(b0, id, Boletin(numero, anio, mes, activo, false));
      }
      ArchiveSameClosed(old(boletines), boletines, resoluciones);
      r := Pass;
    }

    /** `activarBoletin`: afterwards the target is the only active bulletin (none when it is missing). */
    method ActivarBoletin(id: Id)
      modifies this
      ensures resoluciones == old(resoluciones)
      ensures boletines.Keys == old(boletines).Keys
      ensures forall k :: k in boletines ==> boletines[k] == old(boletines)[k].(activo := k == id)
      ensures ActiveIds(boletines) == if id in boletines then {id} else {}
      ensures old(Valid()) ==> Valid()
      ensures ClosedKept(old(boletines), boletines)
      ensures Archive(boletines, resoluciones) == old(Archive(boletines, resoluciones))
    {
      boletines := Deactivated(boletines);
      if id in boletines {
        boletines := boletines[id := boletines[id].(activo := true)];
      }
      ArchiveSameClosed(old(boletines), boletines, resoluciones);
    }

    /** `cerrarBoletin`: only an existing, inactive, open bulletin is closed, and nothing else changes. */
    method CerrarBoletin(id: Id) returns (r: Outcome<string>)
      modifies this
      ensures resoluciones == old(resoluciones)
      ensures id !in old(boletines) ==> r == Fail(NO_ENCONTRADO) && boletines == old(boletines)
      ensures id in old(boletines) && old(boletines)[id].activo ==>
        r == Fail(ACTIVO_NO_SE_CIERRA) && boletines == old(boletines)
      ensures id in old(boletines) && !old(boletines)[id].activo && old(boletines)[id].cerrado ==>
        r == Fail(YA_CERRADO) && boletines == old(boletines)
      ensures id in old(boletines) && !old(boletines)[id].activo && !old(boletines)[id].cerrado ==>
        r == Pass && boletines == old(boletines)[id := old(boletines)[id].(cerrado := true)]
      ensures old(Valid()) ==> Valid()
      ensures ClosedKept(old(boletines), boletines)
      ensures forall k :: k in old(Archive(boletines, resoluciones)) ==> k in Archive(boletines, resoluciones)
      ensures r == Pass ==> ActsOf(resoluciones, id) <= Archive(boletines, resoluciones).Keys
    {
      if id !in boletines {
        return Fail(NO_ENCONTRADO);
      }
      var b := boletines[id];
      if b.activo {
        return Fail(ACTIVO_NO_SE_CIERRA);
      }
      if b.cerrado {
        return Fail(YA_CERRADO);
      }
      boletines := boletines[id := b.(cerrado := true)];
      r := Pass;
    }

    /**
     * `eliminarBoletin`: refused for a closed bulletin and for one with acts;
     * otherwise the row goes (a missing id deletes nothing).
     */
    method EliminarBoletin(id: Id) returns (r: Outcome<string>)
      modifies this
      ensures resoluciones == old(resoluciones)
      ensures id in old(boletines) && old(boletines)[id].cerrado ==>
        r == Fail(CERRADO_NO_SE_ELIMINA) && boletines == old(boletines)
      ensures !(id in old(boletines) && old(boletines)[id].cerrado) && ActsOf(resoluciones, id) != {} ==>
        r == Fail(CON_RESOLUCIONES) && boletines == old(boletines)
      ensures !(id in old(boletines) && old(boletines)[id].cerrado) && ActsOf(resoluciones, id) == {} ==>
        r == Pass && boletines == old(boletines) - {id}
      ensures old(Valid()) ==> Valid()
      ensures ClosedKept(old(boletines), boletines)
      ensures Archive(boletines, resoluciones) == old(Archive(boletines, resoluciones))
    {
      if id in boletines && boletines[id].cerrado {
        return Fail(CERRADO_NO_SE_ELIMINA);
      }
      if |ActsOf(resoluciones, id)| > 0 {
        return Fail(CON_RESOLUCIONES);
      }
      boletines := boletines - {id};
      ArchiveSameClosed(old(boletines), boletines, resoluciones);
      r := Pass;
    }

    /**
     * `crearResolucion`: without a bulletin id the act goes to the active
     * bulletin (the lookup wants exactly one), or to none; a closed target is
     * refused. `id` is the generated key; an insert whose key is taken fails.
     */
    method CrearResolucion(id: Id, data: Resolucion) returns (r: Outcome<string>, target: Option<Id>)
      modifies this
      ensures boletines == old(boletines)
      ensures data.boletinId.Some? ==> target == data.boletinId
      ensures data.boletinId.None? && |ActiveIds(boletines)| == 1 ==>
        target.Some? && ActiveIds(boletines) == {target.value}
      ensures data.boletinId.None? && |ActiveIds(boletines)| != 1 ==> target == None
      ensures ClosedIn(boletines, target) ==> r == Fail(CERRADO_NO_AGREGA) && resoluciones == old(resoluciones)
      ensures !ClosedIn(boletines, target) && id in old(resoluciones) ==>
        r == Fail(ERROR_CREAR_RESOLUCION) && resoluciones == old(resoluciones)
      ensures !ClosedIn(boletines, target) && id !in old(resoluciones) ==>
        r == Pass && resoluciones == old(resoluciones)[id := data.(boletinId := target)]
      ensures Archive(boletines, resoluciones) == old(Archive(boletines, resoluciones))
    {
      target := data.boletinId;
      if target.None? && |ActiveIds(boletines)| == 1 {
        var k :| k in ActiveIds(boletines);
        SingletonOf(ActiveIds(boletines), k);
        target := Some(k);
      }
      if ClosedIn(boletines, target) {
        return Fail(CERRADO_NO_AGREGA), target;
      }
      if id in resoluciones {
        return Fail(ERROR_CREAR_RESOLUCION), target;
      }
      resoluciones := resoluciones[id := data.(boletinId := target)];
      r := Pass;
    }

    /**
     * `editarResolucion`: refused when the act's bulletin is closed; otherwise
     * every field but the bulletin is replaced (a missing id updates nothing).
     */
    method EditarResolucion(id: Id, data: Resolucion) returns (r: Outcome<string>)
      modifies this
      ensures boletines == old(boletines)
      ensures id in old(resoluciones) && ClosedIn(boletines, old(resoluciones)[id].boletinId) ==>
        r == Fail(CERRADO_NO_EDITA) && resoluciones == old(resoluciones)
      ensures id in old(resoluciones) && !ClosedIn(boletines, old(resoluciones)[id].boletinId) ==>
        r == Pass && resoluciones == old(resoluciones)[id := data.(boletinId := old(resoluciones)[id].boletinId)]
      ensures id !in old(resoluciones) ==> r == Pass && resoluciones == old(resoluciones)
      ensures Archive(boletines, resoluciones) == old(Archive(boletines, resoluciones))
    {
      if id in resoluciones {
        var current := resoluciones[id];
        if ClosedIn(boletines, current.boletinId) {
          return Fail(CERRADO_NO_EDITA);
        }
        resoluciones := resoluciones[id := data.(boletinId := current.boletinId)];
      }
      r := Pass;
    }

    /** `eliminarResolucion`: refused when the act's bulletin is closed; otherwise the act goes. */
    method EliminarResolucion(id: Id) returns (r: Outcome<string>)
      modifies this
      ensures boletines == old(boletines)
      ensures id in old(resoluciones) && ClosedIn(boletines, old(resoluciones)[id].boletinId) ==>
        r == Fail(CERRADO_NO_ELIMINA) && resoluciones == old(resoluciones)
      ensures !(id in old(resoluciones) && ClosedIn(boletines, old(resoluciones)[id].boletinId)) ==>
        r == Pass && resoluciones == old(resoluciones) - {id}
      ensures Archive(boletines, resoluciones) == old(Archive(boletines, resoluciones))
    {
      if id in resoluciones && ClosedIn(boletines, resoluciones[id].boletinId) {
        return Fail(CERRADO_NO_ELIMINA);
      }
      resoluciones := resoluciones - {id};
      r := Pass;
    }
  }
}
