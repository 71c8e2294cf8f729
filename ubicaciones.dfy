/**
 * The location lookups of UbicacionesService (empresa/services/ubicaciones.py): departments,
 * their districts, cities and neighbourhoods, read from the nested data the service loads.
 * The loaded data is a parameter.
 */
module Ubicaciones {
  import opened Base
  import opened PyText

  /** A `codigo` as the data holds it: a JSON number or a JSON string. */
  datatype CodigoJson = CodInt(n: int) | CodStr(s: string)

  /** `str(codigo)`: every comparison and every listing uses it. */
  function Cadena(c: CodigoJson): string
  {
    match c
    case CodInt(n) => IntToString(n)
    case CodStr(s) => s
  }

  /**
   * One department, district, city or neighbourhood; `hijos` is its 'distritos', 'ciudades'
   * or 'barrios' list, empty when the key is absent.
   */
  datatype Nodo = Nodo(codigo: CodigoJson, nombre: string, hijos: seq<Nodo>)

  /** One `{'codigo': ..., 'nombre': ...}` entry of a listing. */
  datatype Opcion = Opcion(codigo: string, nombre: string)

  /** The comprehension over a level: one entry per node, in order, its code as text. */
  function Listar(ns: seq<Nodo>): (r: seq<Opcion>)
    ensures |r| == |ns|
    ensures forall i :: 0 <= i < |ns| ==> r[i] == Opcion(Cadena(ns[i].codigo), ns[i].nombre)
  {
    if ns == [] then [] else [Opcion(Cadena(ns[0].codigo), ns[0].nombre)] + Listar(ns[1..])
  }

  /**
   * The nested loops of the lookups: depth first, in data order, the first node reached by
   * a chain of nodes whose codes are `path`; a level without a match inside sends the search
   * on to the next candidate above it.
   */
  function Ruta(ns: seq<Nodo>, path: seq<string>): Option<Nodo>
    requires |path| >= 1
    decreases |path|, |ns|
  {
    if ns == [] then None
    else if Cadena(ns[0].codigo) == path[0] then
      if |path| == 1 then Some(ns[0])
      else match Ruta(ns[0].hijos, path[1..])
        case Some(n) => Some(n)
        case None => Ruta(ns[1..], path)
    else Ruta(ns[1..], path)
  }

  /** Some chain of nodes from `ns` down carries the codes `path`. */
  predicate Existe(ns: seq<Nodo>, path: seq<string>)
    requires |path| >= 1
    decreases |path|
  {
    exists i :: 0 <= i < |ns| && Cadena(ns[i].codigo) == path[0]
      && (|path| == 1 || Existe(ns[i].hijos, path[1..]))
  }

  /** The children of the node the path reaches, or nothing. */
  function Listado(data: seq<Nodo>, path: seq<string>): seq<Opcion>
    requires |path| >= 1
  {
    match Ruta(data, path)
    case Some(n) => Listar(n.hijos)
    case None => []
  }

  /** The name of the node the path reaches, or "". */
  function Nombre(data: seq<Nodo>, path: seq<string>): string
    requires |path| >= 1
  {
    match Ruta(data, path)
    case Some(n) => n.nombre
    case None => ""
  }

  function GetDepartamentos(data: seq<Nodo>): seq<Opcion>
  {
    Listar(data)
  }

  function GetDistritos(data: seq<Nodo>, depto: CodigoJson): seq<Opcion>
  {
    Listado(data, [Cadena(depto)])
  }

  function GetCiudades(data: seq<Nodo>, depto: CodigoJson, distrito: CodigoJson): seq<Opcion>
  {
    Listado(data, [Cadena(depto), Cadena(distrito)])
  }

  function GetBarrios(data: seq<Nodo>, depto: CodigoJson, distrito: CodigoJson, ciudad: CodigoJson): seq<Opcion>
  {
    Listado(data, [Cadena(depto), Cadena(distrito), Cadena(ciudad)])
  }

  function GetNombreDepartamento(data: seq<Nodo>, codigo: CodigoJson): string
  {
    Nombre(data, [Cadena(codigo)])
  }

  function GetNombreDistrito(data: seq<Nodo>, depto: CodigoJson, distrito: CodigoJson): string
  {
    Nombre(data, [Cadena(depto), Cadena(distrito)])
  }

  function GetNombreCiudad(data: seq<Nodo>, depto: CodigoJson, distrito: CodigoJson, ciudad: CodigoJson): string
  {
    Nombre(data, [Cadena(depto), Cadena(distrito), Cadena(ciudad)])
  }

  function GetNombreBarrio(data: seq<Nodo>, depto: CodigoJson, distrito: CodigoJson, ciudad: CodigoJson,
                           barrio: CodigoJson): string
  {
    Nombre(data, [Cadena(depto), Cadena(distrito), Cadena(ciudad), Cadena(barrio)])
  }

  // ---------------------------------------------------------------------------------------
  // Properties

  /**
   * The search finds a node exactly when a chain with those codes exists, and the node it
   * finds carries the last code of the path.
   */
  lemma {:induction false} RutaExiste(ns: seq<Nodo>, path: seq<string>)
    requires |path| >= 1
    ensures Ruta(ns, path).Some? <==> Existe(ns, path)
    ensures Ruta(ns, path).Some? ==> Cadena(Ruta(ns, path).value.codigo) == path[|path| - 1]
    decreases |path|, |ns|
  {
    if ns != [] {
      RutaExiste(ns[1..], path);
      if |path| > 1 {
        RutaExiste(ns[0].hijos, path[1..]);
        assert path[1..][|path| - 2] == path[|path| - 1];
      }
      if Existe(ns[1..], path) {
        var i :| 0 <= i < |ns[1..]| && Cadena(ns[1..][i].codigo) == path[0]
          && (|path| == 1 || Existe(ns[1..][i].hijos, path[1..]));
        assert ns[i + 1] == ns[1..][i];
      }
      forall i | 1 <= i < |ns| && Cadena(ns[i].codigo) == path[0]
          && (|path| == 1 || Existe(ns[i].hijos, path[1..]))
        ensures Existe(ns[1..], path)
      {
        assert ns[1..][i - 1] == ns[i];
      }
    }
  }

  /** One level down, the search returns the first node with that code, and only one with it. */
  lemma {:induction false} RutaPrimero(ns: seq<Nodo>, c: string, i: nat)
    requires i < |ns| && Cadena(ns[i].codigo) == c
    requires forall j :: 0 <= j < i ==> Cadena(ns[j].codigo) != c
    ensures Ruta(ns, [c]) == Some(ns[i])
    decreases i
  {
    if i > 0 {
      RutaPrimero(ns[1..], c, i - 1);
    }
  }

  /** A code that no node of the level has finds nothing. */
  lemma {:induction false} RutaNinguno(ns: seq<Nodo>, path: seq<string>)
    requires |path| >= 1 && forall j :: 0 <= j < |ns| ==> Cadena(ns[j].codigo) != path[0]
    ensures Ruta(ns, path) == None
    decreases |ns|
  {
    if ns != [] {
      RutaNinguno(ns[1..], path);
    }
  }

  /**
   * `get_distritos`: the districts of the first department whose code matches, `[]` when
   * none does (and when that department has none).
   */
  lemma GetDistritosSpec(data: seq<Nodo>, depto: CodigoJson)
    ensures var c := Cadena(depto);
      && ((forall j :: 0 <= j < |data| ==> Cadena(data[j].codigo) != c) ==> GetDistritos(data, depto) == [])
      && (forall i :: 0 <= i < |data| && Cadena(data[i].codigo) == c
            && (forall j :: 0 <= j < i ==> Cadena(data[j].codigo) != c)
            ==> GetDistritos(data, depto) == Listar(data[i].hijos))
  {
    var c := Cadena(depto);
    if forall j :: 0 <= j < |data| ==> Cadena(data[j].codigo) != c {
      RutaNinguno(data, [c]);
    }
    forall i | 0 <= i < |data| && Cadena(data[i].codigo) == c
        && (forall j :: 0 <= j < i ==> Cadena(data[j].codigo) != c)
      ensures GetDistritos(data, depto) == Listar(data[i].hijos)
    {
      RutaPrimero(data, c, i);
    }
  }

  /** Codes compare as text: the number 1 and the string "1" find the same department. */
  lemma CodigoComoTexto(data: seq<Nodo>, n: int)
    ensures GetDistritos(data, CodInt(n)) == GetDistritos(data, CodStr(IntToString(n)))
    ensures GetNombreDepartamento(data, CodInt(n)) == GetNombreDepartamento(data, CodStr(IntToString(n)))
    ensures Ruta([Nodo(CodInt(1), "Capital", [])], ["1"]).Some?
  {
    assert Cadena(CodInt(1)) == "1";
  }

  /**
   * Deeper lookups give `[]` and "" unless every level of the path matches; with a full match
   * they list the children of, and name, the node found.
   */
  lemma ListadoNombreSpec(data: seq<Nodo>, path: seq<string>)
    requires |path| >= 1
    ensures Ruta(data, path).Some? <==> Existe(data, path)
    ensures !Existe(data, path) ==> Listado(data, path) == [] && Nombre(data, path) == ""
    ensures Existe(data, path) ==>
      var n := Ruta(data, path).value;
      Listado(data, path) == Listar(n.hijos) && Nombre(data, path) == n.nombre
      && Cadena(n.codigo) == path[|path| - 1]
  {
    RutaExiste(data, path);
  }

  /** No two nodes of a level share a code. */
  predicate CodigosUnicos(ns: seq<Nodo>)
  {
    forall i, j :: 0 <= i < j < |ns| ==> Cadena(ns[i].codigo) != Cadena(ns[j].codigo)
  }

  /** With unique department codes the search below a department stays in that department. */
  lemma {:induction false} RutaUnica(ns: seq<Nodo>, c: string, i: nat, rest: seq<string>)
    requires CodigosUnicos(ns) && i < |ns| && Cadena(ns[i].codigo) == c && |rest| >= 1
    ensures Ruta(ns, [c] + rest) == Ruta(ns[i].hijos, rest)
    decreases |ns|
  {
    var path := [c] + rest;
    assert path[0] == c && path[1..] == rest;
    if i > 0 {
      assert Cadena(ns[0].codigo) != c;
      RutaUnica(ns[1..], c, i - 1, rest);
    } else {
      if Ruta(ns[0].hijos, rest).None? {
        RutaNinguno(ns[1..], path);
      }
    }
  }

  /**
   * With unique codes on both levels, the district name is the name listed for that code in
   * the department's districts, and "" when no listed district has it.
   */
  lemma NombreDistritoDeListado(data: seq<Nodo>, depto: CodigoJson, distrito: CodigoJson)
    requires CodigosUnicos(data) && forall i :: 0 <= i < |data| ==> CodigosUnicos(data[i].hijos)
    ensures forall o :: o in GetDistritos(data, depto) && o.codigo == Cadena(distrito) ==>
      GetNombreDistrito(data, depto, distrito) == o.nombre
    ensures (forall o :: o in GetDistritos(data, depto) ==> o.codigo != Cadena(distrito)) ==>
      GetNombreDistrito(data, depto, distrito) == ""
  {
    var c, x := Cadena(depto), Cadena(distrito);
    assert [c, x] == [c] + [x];
    if i :| 0 <= i < |data| && Cadena(data[i].codigo) == c {
      RutaUnica(data, c, i, [x]);
      forall j | 0 <= j < i ensures Cadena(data[j].codigo) != c { }
      RutaPrimero(data, c, i);
      var hs := data[i].hijos;
      assert GetDistritos(data, depto) == Listar(hs);
      assert GetNombreDistrito(data, depto, distrito) == Nombre(hs, [x]);
      if k :| 0 <= k < |hs| && Cadena(hs[k].codigo) == x {
        forall j | 0 <= j < k ensures Cadena(hs[j].codigo) != x { }
        RutaPrimero(hs, x, k);
        forall o | o in Listar(hs) && o.codigo == x ensures Nombre(hs, [x]) == o.nombre {
          var j :| 0 <= j < |hs| && Listar(hs)[j] == o;
          assert j == k;
        }
      } else {
        RutaNinguno(hs, [x]);
      }
    } else {
      RutaNinguno(data, [c, x]);
      RutaNinguno(data, [c]);
    }
  }
}
