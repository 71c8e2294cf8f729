/**
 * The `add_attrs` template filter (almacen/templatetags/form_filters.py): parses
 * `"key=value,key=value"` into HTML attributes and renders the field's widget with them
 * merged over the widget's own attributes. Rendering is not modelled; the merged attributes
 * are the result.
 */
module FormFilters {
  import opened Base
  import opened PyText

  type Atributos = map<string, string>

  /** `key, val = attr.split('=')` with anything but two parts raises ValueError. */
  datatype ErrorDesempaque = ValueError(item: string)

  predicate DosPartes(item: string)
  {
    |Split(item, '=')| == 2
  }

  function Clave(item: string): string
    requires DosPartes(item)
  {
    Strip(Split(item, '=')[0])
  }

  function Valor(item: string): string
    requires DosPartes(item)
  {
    Strip(Split(item, '=')[1])
  }

  /**
   * The attributes the loop builds from the items, in order; None as soon as an item does
   * not split into two parts.
   */
  function Parsear(items: seq<string>): Option<Atributos>
  {
    if items == [] then Some(map[])
    else match Parsear(items[..|items| - 1])
      case None => None
      case Some(m) =>
        var it := items[|items| - 1];
        if DosPartes(it) then Some(m[Clave(it) := Valor(it)]) else None
  }

  /**
   * `add_attrs(field, args)`: the loop over `args.split(',')` fills `attrs`, then the
   * widget's attributes are merged with the parsed ones on top.
   */
  method AddAttrs(args: string, widget: Atributos) returns (r: Result<Atributos, ErrorDesempaque>)
    ensures Parsear(Split(args, ',')).None? <==> r.Err?
    ensures r.Ok? ==> var attrs := Parsear(Split(args, ',')).value;
      && (forall k :: k in r.value <==> k in widget || k in attrs)
      && (forall k :: k in attrs ==> r.value[k] == attrs[k])
      && (forall k :: k in widget && k !in attrs ==> r.value[k] == widget[k])
  {
    var items := Split(args, ',');
    var attrs: Atributos := map[];
    var i := 0;
    while i < |items|
      invariant 0 <= i <= |items|
      invariant Parsear(items[..i]) == Some(attrs)
    {
      assert items[..i + 1][..i] == items[..i];
      var partes := Split(items[i], '=');
      if |partes| != 2 {
        ParsearError(items, i + 1);
        return Err(ValueError(items[i]));
      }
      attrs := attrs[Strip(partes[0]) := Strip(partes[1])];
      i := i + 1;
    }
    assert items[..i] == items;
    r := Ok(widget + attrs);
  }

  /** An item that does not split in two makes every longer list fail as well. */
  lemma {:induction false} ParsearError(items: seq<string>, n: nat)
    requires 1 <= n <= |items| && !DosPartes(items[n - 1])
    ensures Parsear(items).None?
    decreases |items|
  {
    if n < |items| {
      assert items[..|items| - 1][n - 1] == items[n - 1];
      ParsearError(items[..|items| - 1], n);
    }
  }

  /** Parsing fails exactly when some item does not split into two parts. */
  lemma {:induction false} ParsearFalla(items: seq<string>)
    ensures Parsear(items).None? <==> exists i :: 0 <= i < |items| && !DosPartes(items[i])
    decreases |items|
  {
    if items != [] {
      var pre := items[..|items| - 1];
      ParsearFalla(pre);
      if exists i :: 0 <= i < |pre| && !DosPartes(pre[i]) {
        var i :| 0 <= i < |pre| && !DosPartes(pre[i]);
        assert items[i] == pre[i];
      }
      if exists i :: 0 <= i < |items| && !DosPartes(items[i]) {
        var i :| 0 <= i < |items| && !DosPartes(items[i]);
        if i < |pre| {
          assert pre[i] == items[i];
        }
      }
    }
  }

  /** On success every item split into two parts. */
  lemma ParsearDosPartes(items: seq<string>)
    requires Parsear(items).Some?
    ensures forall i :: 0 <= i < |items| ==> DosPartes(items[i])
  {
    ParsearFalla(items);
  }

  /** On success the keys are exactly the stripped keys of the items. */
  lemma {:induction false} ParsearClaves(items: seq<string>)
    requires Parsear(items).Some?
    ensures forall i :: 0 <= i < |items| ==> DosPartes(items[i])
    ensures forall k :: k in Parsear(items).value <==> exists i :: 0 <= i < |items| && Clave(items[i]) == k
    decreases |items|
  {
    ParsearDosPartes(items);
    if items != [] {
      var pre := items[..|items| - 1];
      var last := items[|items| - 1];
      ParsearClaves(pre);
      var m := Parsear(items).value;
      assert m == Parsear(pre).value[Clave(last) := Valor(last)];
      forall k | k in m ensures exists i :: 0 <= i < |items| && Clave(items[i]) == k {
        if k != Clave(last) {
          var i :| 0 <= i < |pre| && Clave(pre[i]) == k;
          assert items[i] == pre[i];
        }
      }
      forall i | 0 <= i < |items| ensures Clave(items[i]) in m {
        if i < |pre| {
          assert items[i] == pre[i];
        }
      }
    }
  }

  /** Item `i` is the last that names its key. */
  predicate EsUltimo(items: seq<string>, i: int)
    requires forall j :: 0 <= j < |items| ==> DosPartes(items[j])
  {
    0 <= i < |items| && forall j :: i < j < |items| ==> Clave(items[j]) != Clave(items[i])
  }

  /**
   * On success each key holds the stripped value of the last item that names it: a later
   * duplicate overwrites an earlier one.
   */
  lemma {:induction false} ParsearUltimo(items: seq<string>)
    requires Parsear(items).Some?
    ensures forall i :: 0 <= i < |items| ==> DosPartes(items[i])
    ensures forall i :: EsUltimo(items, i) ==> Clave(items[i]) in Parsear(items).value
    ensures forall i :: EsUltimo(items, i) ==> Parsear(items).value[Clave(items[i])] == Valor(items[i])
    decreases |items|
  {
    ParsearClaves(items);
    if items != [] {
      var pre := items[..|items| - 1];
      var last := items[|items| - 1];
      ParsearUltimo(pre);
      var m := Parsear(items).value;
      assert m == Parsear(pre).value[Clave(last) := Valor(last)];
      forall i | EsUltimo(items, i)
        ensures Clave(items[i]) in m && m[Clave(items[i])] == Valor(items[i])
      {
        if i < |pre| {
          assert items[i] == pre[i];
          assert forall j :: i < j < |pre| ==> pre[j] == items[j];
          assert EsUltimo(pre, i);
          assert Clave(last) != Clave(items[i]);
        }
      }
    }
  }

  /** Every key and value is stripped of surrounding whitespace. */
  lemma ClaveValorSinEspacios(item: string)
    requires DosPartes(item)
    ensures Clave(item) == Strip(Clave(item)) && Valor(item) == Strip(Valor(item))
  {
    StripShape(Split(item, '=')[0]);
    StripNoSpace(Clave(item));
    StripShape(Split(item, '=')[1]);
    StripNoSpace(Valor(item));
  }

  /** An empty `args` is one empty item, which does not split in two: the filter raises. */
  lemma AddAttrsVacio()
    ensures Parsear(Split("", ',')).None?
  {
    assert Split("", ',') == [""];
    assert Split("", '=') == [""];
  }

  /** A string with one separator splits into the two sides. */
  lemma SplitDos(a: string, b: string, c: char)
    requires c !in a && c !in b
    ensures Split(a + [c] + b, c) == [a, b]
  {
    var s := a + [c] + b;
    assert s[|a|] == c;
    assert forall k :: 0 <= k < |a| ==> s[k] == a[k];
    assert IndexOf(s, c) == |a|;
    assert s[..|a|] == a && s[|a| + 1..] == b;
    assert IndexOf(b, c) == |b|;
  }

  lemma SplitClase()
    ensures Split("class=form-control", '=') == ["class", "form-control"]
  {
    assert "class=form-control" == "class" + ['='] + "form-control";
    SplitDos("class", "form-control", '=');
  }

  lemma SplitId()
    ensures Split(" id = x", '=') == [" id ", " x"]
  {
    assert " id = x" == " id " + ['='] + " x";
    SplitDos(" id ", " x", '=');
  }

  lemma StripId()
    ensures Strip(" id ") == "id" && Strip(" x") == "x"
    ensures Strip("class") == "class" && Strip("form-control") == "form-control"
  {
    assert StripLeft(" id ") == "id " && StripRight("id ") == "id";
    assert StripLeft(" x") == "x" && StripRight("x") == "x";
    StripNoSpace("class");
    StripNoSpace("form-control");
  }

  lemma ParsearPar(a: string, b: string)
    requires DosPartes(a) && DosPartes(b)
    ensures Parsear([a, b]) == Some(map[Clave(a) := Valor(a), Clave(b) := Valor(b)])
  {
    assert [a, b][..1] == [a] && [a][..0] == [];
    assert Parsear([a][..0]) == Some(map[]);
    assert Parsear([a]) == Some(map[Clave(a) := Valor(a)]);
    assert [a, b][1] == b;
  }

  /** `"class=form-control, id = x"` gives class and id, stripped. */
  lemma AddAttrsEjemplo()
    ensures Parsear(["class=form-control", " id = x"]) == Some(map["class" := "form-control", "id" := "x"])
  {
    var a, b := "class=form-control", " id = x";
    SplitClase();
    SplitId();
    StripId();
    ParsearPar(a, b);
  }
}
