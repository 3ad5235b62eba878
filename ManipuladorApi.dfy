/*
 * The maintenance API client: the records it exchanges, the fixtures it falls back on
 * when a request fails, the response classification, and the analytics helpers the
 * dashboard runs over lists of maintenance records.
 */
module ManipuladorApi {
  import opened Js
  import Calendar

  // ---------------------------------------------------------------------------
  // Records and fixtures
  // ---------------------------------------------------------------------------

  /** The `caminhao` reference inside a maintenance record. */
  datatype CaminhaoRef = CaminhaoRef(id: JsValue, placa: Option<string>)

  /**
   * A maintenance record. A missing or falsy `descServico` or `custo` is None;
   * `dataConclusao` keeps the difference between null, undefined and a date string.
   */
  datatype Manutencao = Manutencao(
    id: JsValue,
    descServico: Option<string>,
    custo: Option<real>,
    dataInicio: string,
    dataConclusao: JsValue,
    caminhao: Option<CaminhaoRef>)

  datatype Motorista = Motorista(id: JsValue, nome: string)

  datatype Caminhao = Caminhao(id: JsValue, placa: string, modelo: string, ano: int, status: string, motorista: Motorista)

  datatype Alerta = Alerta(id: JsValue, titulo: string, categoria: string, descricao: string, caminhaoId: JsValue)

  const MockManutencoes: seq<Manutencao> := [
    Manutencao(JNum(1), Some("Troca de óleo"), Some(350.0), "2024-10-07T00:00:00.000+00:00",
               JStr("2024-10-08T00:00:00.000+00:00"), Some(CaminhaoRef(JNum(1), Some("ABC-1234")))),
    Manutencao(JNum(2), Some("Revisão de freios"), Some(850.0), "2024-10-14T00:00:00.000+00:00",
               JStr("2024-10-14T00:00:00.000+00:00"), Some(CaminhaoRef(JNum(2), Some("DEF-5678")))),
    Manutencao(JNum(3), Some("Alinhamento"), Some(200.0), "2024-10-23T00:00:00.000+00:00",
               JNull, Some(CaminhaoRef(JNum(1), Some("ABC-1234")))),
    Manutencao(JNum(4), Some("Troca de pneus"), Some(1500.0), "2024-10-28T00:00:00.000+00:00",
               JNull, Some(CaminhaoRef(JNum(3), Some("GHI-9012"))))
  ]

  const MockCaminhoes: seq<Caminhao> := [
    Caminhao(JNum(1), "ABC-1234", "Scania R450", 2022, "ATIVO", Motorista(JNum(1), "Pedro Henrique Vicente Duarte")),
    Caminhao(JNum(2), "DEF-5678", "Volvo FH540", 2021, "ATIVO", Motorista(JNum(2), "João Silva Santos")),
    Caminhao(JNum(3), "GHI-9012", "Mercedes-Benz Actros", 2023, "INATIVO", Motorista(JNum(3), "Maria Oliveira Costa"))
  ]

  const MockAlertas: seq<Alerta> := [
    Alerta(JNum(1), "Combustível baixo", "URGENTE", "Combustível em 5%", JNum(1)),
    Alerta(JNum(2), "Manutenção programada", "AVISO", "Manutenção agendada para amanhã", JNum(2))
  ]

  // ---------------------------------------------------------------------------
  // Scheduled / concluded and the cost total
  // ---------------------------------------------------------------------------

  /** Scheduled: `dataConclusao === null`. */
  predicate Marcada(m: Manutencao) {
    m.dataConclusao == JNull
  }

  /** Concluded: `dataConclusao !== null`, so a missing date counts as concluded. */
  predicate Concluida(m: Manutencao) {
    m.dataConclusao != JNull
  }

  function GetManutencoesMarcadas(ms: seq<Manutencao>): seq<Manutencao> {
    Filter(ms, Marcada)
  }

  function GetManutencoesConcluidas(ms: seq<Manutencao>): seq<Manutencao> {
    Filter(ms, Concluida)
  }

  /**
   * The two lists split the input: every record lands in exactly one of them, each
   * in input order; only a null date makes a record scheduled.
   */
  lemma MarcadasConcluidasPartition(ms: seq<Manutencao>)
    ensures multiset(GetManutencoesMarcadas(ms)) + multiset(GetManutencoesConcluidas(ms)) == multiset(ms)
    ensures |GetManutencoesMarcadas(ms)| + |GetManutencoesConcluidas(ms)| == |ms|
    ensures IsSubsequence(GetManutencoesMarcadas(ms), ms) && IsSubsequence(GetManutencoesConcluidas(ms), ms)
    ensures forall m :: m in GetManutencoesMarcadas(ms) <==> m in ms && m.dataConclusao == JNull
    ensures forall m :: m in GetManutencoesConcluidas(ms) <==> m in ms && m.dataConclusao != JNull
  {
    FilterPartition(ms, Marcada, Concluida);
    FilterIsSubsequence(ms, Marcada);
    FilterIsSubsequence(ms, Concluida);
  }

  /** `m.custo || 0` */
  function Custo(m: Manutencao): real {
    m.custo.GetOr(0.0)
  }

  /** calcularGastoTotal: `reduce((total, m) => total + (m.custo || 0), 0)`. */
  function CalcularGastoTotal(ms: seq<Manutencao>): real {
    if ms == [] then 0.0 else CalcularGastoTotal(ms[..|ms| - 1]) + Custo(ms[|ms| - 1])
  }

  /** The total of a concatenation is the sum of the totals. */
  lemma {:induction false} GastoTotalAppend(a: seq<Manutencao>, b: seq<Manutencao>)
    ensures CalcularGastoTotal(a + b) == CalcularGastoTotal(a) + CalcularGastoTotal(b)
    decreases |b|
  {
    if b == [] {
      assert a + b == a;
    } else {
      assert (a + b)[..|a + b| - 1] == a + b[..|b| - 1];
      assert (a + b)[|a + b| - 1] == b[|b| - 1];
      GastoTotalAppend(a, b[..|b| - 1]);
    }
  }

  /** Taking record i out of b takes its cost out of the total. */
  lemma GastoTotalSemUm(b: seq<Manutencao>, i: int)
    requires 0 <= i < |b|
    ensures CalcularGastoTotal(b) == CalcularGastoTotal(b[..i] + b[i + 1..]) + Custo(b[i])
  {
    var l, x, r := b[..i], b[i], b[i + 1..];
    assert b == (l + [x]) + r;
    GastoTotalAppend(l + [x], r);
    GastoTotalAppend(l, [x]);
    GastoTotalAppend(l, r);
    assert CalcularGastoTotal([x]) == Custo(x);
  }

  lemma MultisetSemUm(a: seq<Manutencao>, b: seq<Manutencao>, i: int)
    requires a != [] && 0 <= i < |b| && b[i] == a[|a| - 1]
    requires multiset(a) == multiset(b)
    ensures multiset(a[..|a| - 1]) == multiset(b[..i] + b[i + 1..])
  {
    var x := b[i];
    assert a == a[..|a| - 1] + [x];
    assert b == b[..i] + [x] + b[i + 1..];
    assert multiset(a[..|a| - 1]) == multiset(a) - multiset{x};
    assert multiset(b[..i] + b[i + 1..]) == multiset(b) - multiset{x};
  }

  /** The total is the same in any order: it only depends on the multiset of records. */
  lemma {:induction false} GastoTotalOfMultiset(a: seq<Manutencao>, b: seq<Manutencao>)
    requires multiset(a) == multiset(b)
    ensures CalcularGastoTotal(a) == CalcularGastoTotal(b)
    decreases |a|
  {
    if a != [] {
      var x := a[|a| - 1];
      assert x in multiset(b);
      var i :| 0 <= i < |b| && b[i] == x;
      MultisetSemUm(a, b, i);
      GastoTotalOfMultiset(a[..|a| - 1], b[..i] + b[i + 1..]);
      GastoTotalSemUm(b, i);
    }
  }

  /** Scheduled plus concluded costs add up to the total. */
  lemma GastoTotalPartition(ms: seq<Manutencao>)
    ensures CalcularGastoTotal(GetManutencoesMarcadas(ms)) + CalcularGastoTotal(GetManutencoesConcluidas(ms))
            == CalcularGastoTotal(ms)
  {
    MarcadasConcluidasPartition(ms);
    var a, b := GetManutencoesMarcadas(ms), GetManutencoesConcluidas(ms);
    GastoTotalAppend(a, b);
    GastoTotalOfMultiset(a + b, ms);
  }

  lemma GastoTotalFixtures()
    ensures CalcularGastoTotal([]) == 0.0
    ensures CalcularGastoTotal(MockManutencoes) == 2900.0
  {
    var ms := MockManutencoes;
    assert ms[..1][..0] == [];
    assert CalcularGastoTotal(ms[..1]) == 350.0;
    assert ms[..2][..1] == ms[..1];
    assert CalcularGastoTotal(ms[..2]) == 1200.0;
    assert ms[..3][..2] == ms[..2];
    assert CalcularGastoTotal(ms[..3]) == 1400.0;
    assert ms[..3] == ms[..|ms| - 1];
  }

  // ---------------------------------------------------------------------------
  // Grouping by a key
  // ---------------------------------------------------------------------------

  /** The records whose key is k, in input order. */
  function ComChave(ms: seq<Manutencao>, key: Manutencao -> PropertyKey, k: PropertyKey): seq<Manutencao> {
    Filter(ms, m => key(m) == k)
  }

  /** The keys that occur in ms. */
  function Chaves(ms: seq<Manutencao>, key: Manutencao -> PropertyKey): set<PropertyKey> {
    set m | m in ms :: key(m)
  }

  lemma ComChaveSnoc(p: seq<Manutencao>, m: Manutencao, key: Manutencao -> PropertyKey, k: PropertyKey)
    ensures ComChave(p + [m], key, k) == ComChave(p, key, k) + (if key(m) == k then [m] else [])
  {
    assert (p + [m])[..|p|] == p;
  }

  lemma ComChaveIsSubsequence(ms: seq<Manutencao>, key: Manutencao -> PropertyKey, k: PropertyKey)
    ensures IsSubsequence(ComChave(ms, key, k), ms)
  {
    FilterIsSubsequence(ms, m => key(m) == k);
  }

  lemma ComChaveEmpty(ms: seq<Manutencao>, key: Manutencao -> PropertyKey, k: PropertyKey)
    ensures ComChave(ms, key, k) == [] <==> k !in Chaves(ms, key)
  {
    var f := ComChave(ms, key, k);
    if k in Chaves(ms, key) {
      var m :| m in ms && key(m) == k;
      assert m in f;
    }
    if f != [] {
      var m := f[0];
      assert m in f;
      assert m in ms && key(m) == k;
      assert k in Chaves(ms, key);
    }
  }

  predicate Distinct(ks: seq<PropertyKey>) {
    forall i, j :: 0 <= i < j < |ks| ==> ks[i] != ks[j]
  }

  lemma WellOrderedDistinct(ks: seq<PropertyKey>)
    requires WellOrdered(ks)
    ensures Distinct(ks)
  {
    forall i, j | 0 <= i < j < |ks| ensures ks[i] != ks[j] {
      assert InOrder(ks[i], ks[j]);
    }
  }

  /** The number of records under each key of ks, added up. */
  function CountOver(ks: seq<PropertyKey>, ms: seq<Manutencao>, key: Manutencao -> PropertyKey): nat {
    if ks == [] then 0 else |ComChave(ms, key, ks[0])| + CountOver(ks[1..], ms, key)
  }

  /** The cost total under each key of ks, added up. */
  function CostOver(ks: seq<PropertyKey>, ms: seq<Manutencao>, key: Manutencao -> PropertyKey): real {
    if ks == [] then 0.0 else CalcularGastoTotal(ComChave(ms, key, ks[0])) + CostOver(ks[1..], ms, key)
  }

  /** Appending a record adds it to its own key's count and total and to no other. */
  lemma ComChaveStep(p: seq<Manutencao>, m: Manutencao, key: Manutencao -> PropertyKey, k: PropertyKey)
    ensures |ComChave(p + [m], key, k)| == |ComChave(p, key, k)| + (if key(m) == k then 1 else 0)
    ensures CalcularGastoTotal(ComChave(p + [m], key, k))
            == CalcularGastoTotal(ComChave(p, key, k)) + (if key(m) == k then Custo(m) else 0.0)
  {
    ComChaveSnoc(p, m, key, k);
    var f := ComChave(p, key, k);
    if key(m) == k {
      GastoTotalAppend(f, [m]);
      assert CalcularGastoTotal([m]) == Custo(m);
    } else {
      assert ComChave(p + [m], key, k) == f + [];
      assert f + [] == f;
    }
  }

  lemma DistinctTail(ks: seq<PropertyKey>, x: PropertyKey)
    requires Distinct(ks) && ks != []
    ensures x in ks <==> x == ks[0] || x in ks[1..]
    ensures x == ks[0] ==> x !in ks[1..]
  {
    assert ks == [ks[0]] + ks[1..];
    if x == ks[0] {
      forall j | 0 <= j < |ks[1..]| ensures ks[1..][j] != ks[0] {
        assert ks[1..][j] == ks[j + 1];
      }
    }
  }

  lemma {:induction false} OverStep(ks: seq<PropertyKey>, p: seq<Manutencao>, m: Manutencao, key: Manutencao -> PropertyKey)
    requires Distinct(ks)
    ensures CountOver(ks, p + [m], key) == CountOver(ks, p, key) + (if key(m) in ks then 1 else 0)
    ensures CostOver(ks, p + [m], key) == CostOver(ks, p, key) + (if key(m) in ks then Custo(m) else 0.0)
  {
    if ks != [] {
      assert Distinct(ks[1..]) by {
        forall i, j | 0 <= i < j < |ks[1..]| ensures ks[1..][i] != ks[1..][j] {
          assert ks[1..][i] == ks[i + 1] && ks[1..][j] == ks[j + 1];
        }
      }
      OverStep(ks[1..], p, m, key);
      ComChaveStep(p, m, key, ks[0]);
      DistinctTail(ks, key(m));
    }
  }

  /**
   * Summing the per-key counts and totals over distinct keys that cover every record
   * gives back the number of records and the cost total.
   */
  lemma {:induction false} OverCovers(ks: seq<PropertyKey>, ms: seq<Manutencao>, key: Manutencao -> PropertyKey)
    requires Distinct(ks)
    requires forall m :: m in ms ==> key(m) in ks
    ensures CountOver(ks, ms, key) == |ms|
    ensures CostOver(ks, ms, key) == CalcularGastoTotal(ms)
    decreases |ms|
  {
    if ms == [] {
      OverEmpty(ks, key);
    } else {
      var p, m := ms[..|ms| - 1], ms[|ms| - 1];
      assert ms == p + [m];
      OverCovers(ks, p, key);
      OverStep(ks, p, m, key);
    }
  }

  lemma {:induction false} OverEmpty(ks: seq<PropertyKey>, key: Manutencao -> PropertyKey)
    ensures CountOver(ks, [], key) == 0 && CostOver(ks, [], key) == 0.0
  {
    if ks != [] {
      OverEmpty(ks[1..], key);
    }
  }

  // ---------------------------------------------------------------------------
  // agruparGastosPorTipo
  // ---------------------------------------------------------------------------

  datatype Grupo = Grupo(tipo: string, total: real, quantidade: nat, manutencoes: seq<Manutencao>)

  /** `m.descServico || 'Outros'` */
  function Tipo(m: Manutencao): string {
    OrElse(m.descServico, "Outros")
  }

  function TipoKey(m: Manutencao): PropertyKey {
    KeyOfString(Tipo(m))
  }

  /** The group a record joins: its running entry, or a fresh one on first sight. */
  function GrupoAtual(grupos: Obj<Grupo>, m: Manutencao): Grupo {
    if TipoKey(m) in grupos.vals then grupos.vals[TipoKey(m)] else Grupo(Tipo(m), 0.0, 0, [])
  }

  /** `total += m.custo || 0; quantidade += 1; manutencoes.push(m)` */
  function Junta(g: Grupo, m: Manutencao): Grupo {
    Grupo(g.tipo, g.total + Custo(m), g.quantidade + 1, g.manutencoes + [m])
  }

  /** One forEach step: the record's cost, count and membership are added to its group. */
  function AcumulaTipo(grupos: Obj<Grupo>, m: Manutencao): (r: Obj<Grupo>)
    requires Valid(grupos)
    ensures Valid(r)
  {
    Set(grupos, TipoKey(m), Junta(GrupoAtual(grupos, m), m))
  }

  /** The `grupos` dictionary after the forEach over ms. */
  function GruposPorTipo(ms: seq<Manutencao>): (o: Obj<Grupo>)
    ensures Valid(o)
  {
    if ms == [] then Empty() else AcumulaTipo(GruposPorTipo(ms[..|ms| - 1]), ms[|ms| - 1])
  }

  /** The group the dictionary holds under key k: every record of that type, in order. */
  function GrupoDe(ms: seq<Manutencao>, k: PropertyKey): Grupo {
    var f := ComChave(ms, TipoKey, k);
    Grupo(KeyToString(k), CalcularGastoTotal(f), |f|, f)
  }

  /** One fold step keeps every group equal to the records of its type seen so far. */
  lemma AcumulaTipoEntry(o: Obj<Grupo>, p: seq<Manutencao>, m: Manutencao, k: PropertyKey)
    requires Valid(o)
    requires k in o.vals <==> ComChave(p, TipoKey, k) != []
    requires k in o.vals ==> o.vals[k] == GrupoDe(p, k)
    requires k in o.vals || k == TipoKey(m)
    ensures k in AcumulaTipo(o, m).vals
    ensures AcumulaTipo(o, m).vals[k] == GrupoDe(p + [m], k)
  {
    ComChaveSnoc(p, m, TipoKey, k);
    var f := ComChave(p, TipoKey, k);
    var r := AcumulaTipo(o, m);
    assert r.vals == o.vals[TipoKey(m) := Junta(GrupoAtual(o, m), m)];
    if k == TipoKey(m) {
      var g := ComChave(p + [m], TipoKey, k);
      assert g == f + [m];
      GastoTotalAppend(f, [m]);
      assert CalcularGastoTotal([m]) == Custo(m);
      assert CalcularGastoTotal(g) == CalcularGastoTotal(f) + Custo(m);
      if k in o.vals {
        assert GrupoAtual(o, m) == GrupoDe(p, k);
        assert Junta(GrupoDe(p, k), m) == GrupoDe(p + [m], k);
      } else {
        assert f == [];
        KeyOfStringRoundTrip(Tipo(m));
        assert GrupoAtual(o, m) == Grupo(KeyToString(k), 0.0, 0, []);
        assert Junta(GrupoAtual(o, m), m) == GrupoDe(p + [m], k);
      }
    } else {
      assert ComChave(p + [m], TipoKey, k) == f;
      assert r.vals[k] == o.vals[k];
    }
  }

  lemma {:induction false} GruposPorTipoContents(ms: seq<Manutencao>)
    ensures forall k :: k in GruposPorTipo(ms).vals <==> k in Chaves(ms, TipoKey)
    ensures forall k :: k in GruposPorTipo(ms).vals ==> GruposPorTipo(ms).vals[k] == GrupoDe(ms, k)
  {
    if ms != [] {
      var p, m := ms[..|ms| - 1], ms[|ms| - 1];
      assert ms == p + [m];
      GruposPorTipoContents(p);
      var o := GruposPorTipo(p);
      var r := GruposPorTipo(ms);
      assert r == AcumulaTipo(o, m);
      var km := TipoKey(m);
      assert Chaves(ms, TipoKey) == Chaves(p, TipoKey) + {km};
      assert forall k :: k in r.vals <==> k in o.vals || k == km;
      forall k | k in r.vals
        ensures r.vals[k] == GrupoDe(ms, k)
      {
        ComChaveEmpty(p, TipoKey, k);
        AcumulaTipoEntry(o, p, m, k);
      }
    }
  }

  /**
   * The callback's writes (create the group when `!grupos[tipo]`, then `total +=`,
   * `quantidade += 1` and `manutencoes.push` on it) leave the dictionary one fold step gives.
   */
  lemma DuasEscritasTipo(antes: Obj<Grupo>, m: Manutencao, meio: Obj<Grupo>, g: Grupo, depois: Obj<Grupo>)
    requires Valid(antes)
    requires meio == if TipoKey(m) in antes.vals then antes
                     else Set(antes, TipoKey(m), Grupo(Tipo(m), 0.0, 0, []))
    requires TipoKey(m) in meio.vals && g == meio.vals[TipoKey(m)]
    requires depois == Set(meio, TipoKey(m), Grupo(g.tipo, g.total + Custo(m), g.quantidade + 1, g.manutencoes + [m]))
    ensures depois == AcumulaTipo(antes, m)
  {
    assert g == GrupoAtual(antes, m);
    assert Grupo(g.tipo, g.total + Custo(m), g.quantidade + 1, g.manutencoes + [m]) == Junta(g, m);
    if TipoKey(m) !in antes.vals {
      SetTwice(antes, TipoKey(m), Grupo(Tipo(m), 0.0, 0, []), Junta(g, m));
    }
  }

  /** The forEach of agruparGastosPorTipo, building `grupos` in place. */
  method ContarPorTipo(ms: seq<Manutencao>) returns (grupos: Obj<Grupo>)
    ensures grupos == GruposPorTipo(ms)
  {
    grupos := Empty();
    var i := 0;
    while i < |ms|
      invariant 0 <= i <= |ms|
      invariant grupos == GruposPorTipo(ms[..i])
    {
      assert ms[..i + 1][..i] == ms[..i];
      grupos := RegistraTipo(grupos, ms[i]);
      i := i + 1;
    }
    assert ms[..|ms|] == ms;
  }

  /** The forEach callback: add the record, its cost and one to the count of its type's group. */
  method RegistraTipo(grupos: Obj<Grupo>, m: Manutencao) returns (r: Obj<Grupo>)
    requires Valid(grupos)
    ensures r == AcumulaTipo(grupos, m)
  {
    r := grupos;
    var tipo := Tipo(m);
    var k := TipoKey(m);
    if k !in r.vals {
      r := Set(r, k, Grupo(tipo, 0.0, 0, []));
    }
    ghost var meio := r;
    var g := r.vals[k];
    r := Set(r, k, Grupo(g.tipo, g.total + Custo(m), g.quantidade + 1, g.manutencoes + [m]));
    DuasEscritasTipo(grupos, m, meio, g, r);
  }

  /** agruparGastosPorTipo: the forEach building `grupos`, then `Object.values(grupos)`. */
  method AgruparGastosPorTipo(ms: seq<Manutencao>) returns (r: seq<Grupo>)
    ensures r == Values(GruposPorTipo(ms))
  {
    var grupos := ContarPorTipo(ms);
    r := Values(grupos);
  }

  function SomaQuantidades(gs: seq<Grupo>): nat {
    if gs == [] then 0 else gs[0].quantidade + SomaQuantidades(gs[1..])
  }

  function SomaTotais(gs: seq<Grupo>): real {
    if gs == [] then 0.0 else gs[0].total + SomaTotais(gs[1..])
  }

  lemma {:induction false} SomasOverKeys(gs: seq<Grupo>, ks: seq<PropertyKey>, ms: seq<Manutencao>)
    requires |gs| == |ks|
    requires forall i :: 0 <= i < |gs| ==> gs[i] == GrupoDe(ms, ks[i])
    ensures SomaQuantidades(gs) == CountOver(ks, ms, TipoKey)
    ensures SomaTotais(gs) == CostOver(ks, ms, TipoKey)
  {
    if gs != [] {
      assert forall i :: 0 <= i < |gs[1..]| ==> gs[1..][i] == gs[i + 1] && ks[1..][i] == ks[i + 1];
      SomasOverKeys(gs[1..], ks[1..], ms);
    }
  }

  /** The groups' counts add up to the number of records and their totals to calcularGastoTotal. */
  lemma AgruparGastosPorTipoSomas(ms: seq<Manutencao>)
    ensures SomaQuantidades(Values(GruposPorTipo(ms))) == |ms|
    ensures SomaTotais(Values(GruposPorTipo(ms))) == CalcularGastoTotal(ms)
  {
    var o := GruposPorTipo(ms);
    GruposPorTipoContents(ms);
    WellOrderedDistinct(o.keys);
    forall m | m in ms ensures TipoKey(m) in o.keys {
      assert TipoKey(m) in Chaves(ms, TipoKey);
    }
    OverCovers(o.keys, ms, TipoKey);
    SomasOverKeys(Values(o), o.keys, ms);
  }

  /** Two records share a group key exactly when they share a type. */
  lemma TipoKeyMatches(a: Manutencao, b: Manutencao)
    ensures TipoKey(a) == TipoKey(b) <==> Tipo(a) == Tipo(b)
    ensures Tipo(a) == KeyToString(TipoKey(a))
  {
    KeyOfStringRoundTrip(Tipo(a));
    if TipoKey(a) == TipoKey(b) {
      KeyOfStringInjective(Tipo(a), Tipo(b));
    }
  }

  /**
   * g is the group of its type in ms: non-empty, holding exactly the records of type
   * g.tipo in input order, with their count and cost total.
   */
  ghost predicate GrupoDoTipo(g: Grupo, ms: seq<Manutencao>) {
    && g.manutencoes != []
    && (forall m :: m in g.manutencoes <==> m in ms && Tipo(m) == g.tipo)
    && IsSubsequence(g.manutencoes, ms)
    && g.quantidade == |g.manutencoes|
    && g.total == CalcularGastoTotal(g.manutencoes)
  }

  /** The group under a key that occurs holds exactly that type's records. */
  lemma GrupoDeContents(ms: seq<Manutencao>, k: PropertyKey)
    requires k in Chaves(ms, TipoKey)
    ensures GrupoDoTipo(GrupoDe(ms, k), ms)
  {
    var f := ComChave(ms, TipoKey, k);
    ComChaveEmpty(ms, TipoKey, k);
    ComChaveIsSubsequence(ms, TipoKey, k);
    var w := f[0];
    assert w in f;
    forall m | m in ms ensures TipoKey(m) == k <==> Tipo(m) == KeyToString(k) {
      TipoKeyMatches(m, w);
      TipoKeyMatches(w, m);
    }
  }

  /**
   * The groups of agruparGastosPorTipo: each holds exactly the records of its type
   * (a missing type is 'Outros'), in input order, with their count and cost total.
   */
  lemma AgruparGastosPorTipoGroups(ms: seq<Manutencao>)
    ensures forall g :: g in Values(GruposPorTipo(ms)) ==> GrupoDoTipo(g, ms)
  {
    var o := GruposPorTipo(ms);
    var gs := Values(o);
    GruposPorTipoContents(ms);
    forall g | g in gs ensures GrupoDoTipo(g, ms) {
      var i :| 0 <= i < |gs| && gs[i] == g;
      assert o.keys[i] in o.vals;
      GrupoDeContents(ms, o.keys[i]);
    }
  }

  /** There is one group per type: no two groups share a type and every record's type has one. */
  lemma AgruparGastosPorTipoOnePerType(ms: seq<Manutencao>)
    ensures var gs := Values(GruposPorTipo(ms));
      && (forall i, j :: 0 <= i < j < |gs| ==> gs[i].tipo != gs[j].tipo)
      && (forall m :: m in ms ==> exists i :: 0 <= i < |gs| && gs[i].tipo == Tipo(m))
  {
    var o := GruposPorTipo(ms);
    var gs := Values(o);
    GruposPorTipoContents(ms);
    WellOrderedDistinct(o.keys);
    forall i, j | 0 <= i < j < |gs| ensures gs[i].tipo != gs[j].tipo {
      GrupoDeContents(ms, o.keys[i]);
      GrupoDeContents(ms, o.keys[j]);
      assert GrupoDoTipo(gs[i], ms) && GrupoDoTipo(gs[j], ms);
      var wi, wj := gs[i].manutencoes[0], gs[j].manutencoes[0];
      assert wi in gs[i].manutencoes && wj in gs[j].manutencoes;
      assert TipoKey(wi) == o.keys[i] && TipoKey(wj) == o.keys[j];
      TipoKeyMatches(wi, wj);
    }
    forall m | m in ms ensures exists i :: 0 <= i < |gs| && gs[i].tipo == Tipo(m) {
      assert TipoKey(m) in Chaves(ms, TipoKey);
      var i :| 0 <= i < |o.keys| && o.keys[i] == TipoKey(m);
      TipoKeyMatches(m, m);
      assert gs[i].tipo == KeyToString(TipoKey(m));
    }
  }

  /** The Object.prototype members a plain object inherits: `obj[name]` is truthy for each. */
  const ObjectPrototypeNames: set<string> := {
    "__defineGetter__", "__defineSetter__", "__lookupGetter__", "__lookupSetter__", "__proto__",
    "constructor", "hasOwnProperty", "isPrototypeOf", "propertyIsEnumerable",
    "toLocaleString", "toString", "valueOf"
  }

  /**
   * agruparGastosPorTipo as written: `!grupos[tipo]` also sees inherited members, so a
   * type named like one of them never gets a group and `grupos[tipo].manutencoes.push`
   * throws a TypeError.
   */
  function AgruparGastosPorTipoAsWritten(ms: seq<Manutencao>): (r: Settled<seq<Grupo>>)
  {
    if exists i :: 0 <= i < |ms| && Tipo(ms[i]) in ObjectPrototypeNames
    then Rejected("TypeError: Cannot read properties of undefined (reading 'push')")
    else Fulfilled(Values(GruposPorTipo(ms)))
  }

  /** A single record of type "constructor" makes the written function throw. */
  lemma InheritedTypeNameThrows()
    ensures AgruparGastosPorTipoAsWritten(
      [Manutencao(JNum(5), Some("constructor"), Some(100.0), "2024-10-01", JNull, None)]).Rejected?
  {
    var ms := [Manutencao(JNum(5), Some("constructor"), Some(100.0), "2024-10-01", JNull, None)];
    assert Tipo(ms[0]) == "constructor";
  }

  /** Away from those names the written function and the own-key grouping agree. */
  lemma AsWrittenAgreesOffPrototypeNames(ms: seq<Manutencao>)
    requires forall m :: m in ms ==> Tipo(m) !in ObjectPrototypeNames
    ensures AgruparGastosPorTipoAsWritten(ms) == Fulfilled(Values(GruposPorTipo(ms)))
  {
  }

  // ---------------------------------------------------------------------------
  // getVeiculoMaisProblemas
  // ---------------------------------------------------------------------------

  datatype Veiculo = Veiculo(id: JsValue, placa: string, quantidade: nat, custoTotal: real)

  /** `m.caminhao?.id || 'Desconhecido'` */
  function VeiculoId(m: Manutencao): JsValue {
    if m.caminhao.Some? && TruthyValue(m.caminhao.value.id) then m.caminhao.value.id
    else JStr("Desconhecido")
  }

  function VeiculoKey(m: Manutencao): PropertyKey {
    KeyOfValue(VeiculoId(m))
  }

  /** `m.caminhao?.placa || 'N/A'` */
  function Placa(m: Manutencao): string {
    if m.caminhao.Some? then OrElse(m.caminhao.value.placa, "N/A") else "N/A"
  }

  /** The entry a record joins: the vehicle's running entry, or a fresh one on first sight. */
  function VeiculoAtual(veiculos: Obj<Veiculo>, m: Manutencao): Veiculo {
    if VeiculoKey(m) in veiculos.vals then veiculos.vals[VeiculoKey(m)] else Veiculo(VeiculoId(m), Placa(m), 0, 0.0)
  }

  /** `quantidade += 1; custoTotal += m.custo || 0` */
  function Conta(v: Veiculo, m: Manutencao): Veiculo {
    Veiculo(v.id, v.placa, v.quantidade + 1, v.custoTotal + Custo(m))
  }

  /** One forEach step: the record is counted and its cost added under its vehicle. */
  function AcumulaVeiculo(veiculos: Obj<Veiculo>, m: Manutencao): (r: Obj<Veiculo>)
    requires Valid(veiculos)
    ensures Valid(r)
  {
    Set(veiculos, VeiculoKey(m), Conta(VeiculoAtual(veiculos, m), m))
  }

  /**
   * The callback's two writes (create the entry when `!veiculos[veiculoId]`, then
   * update it in place) leave the dictionary one fold step gives.
   */
  lemma DuasEscritasVeiculo(antes: Obj<Veiculo>, m: Manutencao, meio: Obj<Veiculo>, v: Veiculo, depois: Obj<Veiculo>)
    requires Valid(antes)
    requires meio == if VeiculoKey(m) in antes.vals then antes
                     else Set(antes, VeiculoKey(m), Veiculo(VeiculoId(m), Placa(m), 0, 0.0))
    requires VeiculoKey(m) in meio.vals && v == meio.vals[VeiculoKey(m)]
    requires depois == Set(meio, VeiculoKey(m), Veiculo(v.id, v.placa, v.quantidade + 1, v.custoTotal + Custo(m)))
    ensures depois == AcumulaVeiculo(antes, m)
  {
    assert v == VeiculoAtual(antes, m);
    assert Veiculo(v.id, v.placa, v.quantidade + 1, v.custoTotal + Custo(m)) == Conta(v, m);
    if VeiculoKey(m) !in antes.vals {
      SetTwice(antes, VeiculoKey(m), Veiculo(VeiculoId(m), Placa(m), 0, 0.0), Conta(v, m));
    }
  }

  /** The `veiculos` dictionary after the forEach over ms. */
  function VeiculosPorId(ms: seq<Manutencao>): (o: Obj<Veiculo>)
    ensures Valid(o)
  {
    if ms == [] then Empty() else AcumulaVeiculo(VeiculosPorId(ms[..|ms| - 1]), ms[|ms| - 1])
  }

  /** The entry for key k: id and placa of the vehicle's first record, count and cost of all. */
  function VeiculoDe(ms: seq<Manutencao>, k: PropertyKey): Veiculo
    requires ComChave(ms, VeiculoKey, k) != []
  {
    var f := ComChave(ms, VeiculoKey, k);
    Veiculo(VeiculoId(f[0]), Placa(f[0]), |f|, CalcularGastoTotal(f))
  }

  /** One fold step keeps every entry equal to the summary of its vehicle's records. */
  lemma AcumulaVeiculoEntry(o: Obj<Veiculo>, p: seq<Manutencao>, m: Manutencao, k: PropertyKey)
    requires Valid(o)
    requires k in o.vals <==> ComChave(p, VeiculoKey, k) != []
    requires k in o.vals ==> o.vals[k] == VeiculoDe(p, k)
    requires k in o.vals || k == VeiculoKey(m)
    ensures ComChave(p + [m], VeiculoKey, k) != []
    ensures k in AcumulaVeiculo(o, m).vals
    ensures AcumulaVeiculo(o, m).vals[k] == VeiculoDe(p + [m], k)
  {
    ComChaveSnoc(p, m, VeiculoKey, k);
    var f := ComChave(p, VeiculoKey, k);
    var r := AcumulaVeiculo(o, m);
    assert r.vals == o.vals[VeiculoKey(m) := Conta(VeiculoAtual(o, m), m)];
    if k == VeiculoKey(m) {
      var g := ComChave(p + [m], VeiculoKey, k);
      assert g == f + [m];
      GastoTotalAppend(f, [m]);
      assert CalcularGastoTotal([m]) == Custo(m);
      assert CalcularGastoTotal(g) == CalcularGastoTotal(f) + Custo(m);
      if k in o.vals {
        assert g[0] == f[0];
        assert VeiculoAtual(o, m) == VeiculoDe(p, k);
        assert Conta(VeiculoDe(p, k), m) == VeiculoDe(p + [m], k);
      } else {
        assert f == [];
        assert g == [m];
        assert VeiculoAtual(o, m) == Veiculo(VeiculoId(m), Placa(m), 0, 0.0);
        assert Conta(VeiculoAtual(o, m), m) == VeiculoDe(p + [m], k);
      }
      assert r.vals[k] == Conta(VeiculoAtual(o, m), m);
    } else {
      assert ComChave(p + [m], VeiculoKey, k) == f;
      assert r.vals[k] == o.vals[k];
    }
  }

  lemma {:induction false} VeiculosPorIdContents(ms: seq<Manutencao>)
    ensures forall k :: k in VeiculosPorId(ms).vals <==> k in Chaves(ms, VeiculoKey)
    ensures forall k :: k in VeiculosPorId(ms).vals ==>
              ComChave(ms, VeiculoKey, k) != [] && VeiculosPorId(ms).vals[k] == VeiculoDe(ms, k)
  {
    if ms != [] {
      var p, m := ms[..|ms| - 1], ms[|ms| - 1];
      assert ms == p + [m];
      VeiculosPorIdContents(p);
      var o := VeiculosPorId(p);
      var r := VeiculosPorId(ms);
      assert r == AcumulaVeiculo(o, m);
      var km := VeiculoKey(m);
      assert Chaves(ms, VeiculoKey) == Chaves(p, VeiculoKey) + {km};
      assert forall k :: k in r.vals <==> k in o.vals || k == km;
      forall k | k in r.vals
        ensures ComChave(ms, VeiculoKey, k) != [] && r.vals[k] == VeiculoDe(ms, k)
      {
        ComChaveEmpty(p, VeiculoKey, k);
        AcumulaVeiculoEntry(o, p, m, k);
      }
    }
  }

  /** `lista.reduce((max, v) => v.quantidade > max.quantidade ? v : max)`: the index it keeps. */
  function MaisProblemas(l: seq<Veiculo>): (i: nat)
    requires |l| > 0
    ensures i < |l|
    ensures forall j :: 0 <= j < |l| ==> l[j].quantidade <= l[i].quantidade
    ensures forall j :: 0 <= j < i ==> l[j].quantidade < l[i].quantidade
  {
    if |l| == 1 then 0
    else
      var p := MaisProblemas(l[..|l| - 1]);
      assert forall j :: 0 <= j < |l| - 1 ==> l[..|l| - 1][j] == l[j];
      if l[|l| - 1].quantidade > l[p].quantidade then |l| - 1 else p
  }

  /** What getVeiculoMaisProblemas returns: null for no entries, else the kept maximum. */
  function VeiculoMaisProblemas(ms: seq<Manutencao>): Option<Veiculo> {
    var lista := Values(VeiculosPorId(ms));
    if |lista| == 0 then None else Some(lista[MaisProblemas(lista)])
  }

  /** The forEach of getVeiculoMaisProblemas, building `veiculos` in place. */
  method ContarPorVeiculo(ms: seq<Manutencao>) returns (veiculos: Obj<Veiculo>)
    ensures veiculos == VeiculosPorId(ms)
  {
    veiculos := Empty();
    var i := 0;
    while i < |ms|
      invariant 0 <= i <= |ms|
      invariant veiculos == VeiculosPorId(ms[..i])
    {
      assert ms[..i + 1][..i] == ms[..i];
      veiculos := RegistraVeiculo(veiculos, ms[i]);
      i := i + 1;
    }
    assert ms[..|ms|] == ms;
  }

  /** The forEach callback: count the record and add its cost under its vehicle. */
  method RegistraVeiculo(veiculos: Obj<Veiculo>, m: Manutencao) returns (r: Obj<Veiculo>)
    requires Valid(veiculos)
    ensures r == AcumulaVeiculo(veiculos, m)
  {
    r := veiculos;
    var veiculoId := VeiculoId(m);
    var k := VeiculoKey(m);
    if k !in r.vals {
      r := Set(r, k, Veiculo(veiculoId, Placa(m), 0, 0.0));
    }
    ghost var meio := r;
    var v := r.vals[k];
    r := Set(r, k, Veiculo(v.id, v.placa, v.quantidade + 1, v.custoTotal + Custo(m)));
    DuasEscritasVeiculo(veiculos, m, meio, v, r);
  }

  /** `lista.reduce((max, v) => v.quantidade > max.quantidade ? v : max)` */
  method ReduzMaximo(lista: seq<Veiculo>) returns (max: Veiculo)
    requires |lista| > 0
    ensures max == lista[MaisProblemas(lista)]
  {
    max := lista[0];
    var j := 1;
    assert lista[..1] == [lista[0]];
    while j < |lista|
      invariant 1 <= j <= |lista|
      invariant max == lista[MaisProblemas(lista[..j])]
    {
      assert lista[..j + 1][..j] == lista[..j];
      if lista[j].quantidade > max.quantidade {
        max := lista[j];
      }
      j := j + 1;
    }
    assert lista[..|lista|] == lista;
  }

  /** getVeiculoMaisProblemas: the forEach building `veiculos`, then the reduce over its values. */
  method GetVeiculoMaisProblemas(ms: seq<Manutencao>) returns (r: Option<Veiculo>)
    ensures r == VeiculoMaisProblemas(ms)
  {
    var veiculos := ContarPorVeiculo(ms);
    var lista := Values(veiculos);
    if |lista| == 0 {
      return None;
    }
    var max := ReduzMaximo(lista);
    return Some(max);
  }

  /** getVeiculoMaisProblemas returns null exactly when there are no records. */
  lemma VeiculoMaisProblemasNone(ms: seq<Manutencao>)
    ensures VeiculoMaisProblemas(ms).None? <==> ms == []
  {
    VeiculosPorIdContents(ms);
    if ms != [] {
      assert VeiculoKey(ms[0]) in Chaves(ms, VeiculoKey);
    }
  }

  /**
   * Key p of ks is the first with the most records in ms: no key has more, and
   * every key before it has fewer.
   */
  ghost predicate PrimeiroComMaisRegistros(ms: seq<Manutencao>, ks: seq<PropertyKey>, p: int) {
    && 0 <= p < |ks|
    && (forall q :: 0 <= q < |ks| ==> |ComChave(ms, VeiculoKey, ks[q])| <= |ComChave(ms, VeiculoKey, ks[p])|)
    && (forall q :: 0 <= q < p ==> |ComChave(ms, VeiculoKey, ks[q])| < |ComChave(ms, VeiculoKey, ks[p])|)
  }

  /**
   * Otherwise it returns the entry of the first vehicle key, in enumeration order
   * (integer ids ascending, then other keys in first-seen order; falsy ids all fall
   * under 'Desconhecido'), with the most records: the entry carries that vehicle's
   * first record's id and placa and the count and total of all its records.
   */
  lemma VeiculoMaisProblemasIsFirstMaximum(ms: seq<Manutencao>)
    requires ms != []
    ensures var ks := VeiculosPorId(ms).keys;
      exists p :: PrimeiroComMaisRegistros(ms, ks, p)
        && ComChave(ms, VeiculoKey, ks[p]) != []
        && VeiculoMaisProblemas(ms) == Some(VeiculoDe(ms, ks[p]))
  {
    var o := VeiculosPorId(ms);
    var lista := Values(o);
    VeiculoMaisProblemasNone(ms);
    var p := MaisProblemas(lista);
    forall q | 0 <= q < |lista| ensures lista[q].quantidade == |ComChave(ms, VeiculoKey, o.keys[q])| {
      EntradaDeVeiculo(ms, q);
    }
    EntradaDeVeiculo(ms, p);
    assert PrimeiroComMaisRegistros(ms, o.keys, p);
  }

  /** The q-th entry of `Object.values(veiculos)` summarises the records under the q-th key. */
  lemma EntradaDeVeiculo(ms: seq<Manutencao>, q: int)
    requires 0 <= q < |VeiculosPorId(ms).keys|
    ensures ComChave(ms, VeiculoKey, VeiculosPorId(ms).keys[q]) != []
    ensures Values(VeiculosPorId(ms))[q] == VeiculoDe(ms, VeiculosPorId(ms).keys[q])
  {
    VeiculosPorIdContents(ms);
    assert VeiculosPorId(ms).keys[q] in VeiculosPorId(ms).vals;
  }

  /** Every record whose vehicle id is falsy or missing is counted under 'Desconhecido'. */
  lemma FalsyIdIsDesconhecido(m: Manutencao)
    requires m.caminhao.None? || !TruthyValue(m.caminhao.value.id)
    ensures VeiculoKey(m) == Name("Desconhecido")
  {
    assert !IsDigit("Desconhecido"[0]);
  }

  /** The record's vehicle key names a member every plain object inherits. */
  predicate VeiculoHerdado(m: Manutencao) {
    KeyToString(VeiculoKey(m)) in ObjectPrototypeNames
  }

  predicate VeiculoProprio(m: Manutencao) {
    !VeiculoHerdado(m)
  }

  /**
   * One forEach step of getVeiculoMaisProblemas as written: for an inherited name
   * `!veiculos[veiculoId]` is false, so no entry is created and the two `+=` land on the
   * inherited member; the object's own properties are left as they were.
   */
  function AcumulaVeiculoAsWritten(veiculos: Obj<Veiculo>, m: Manutencao): (r: Obj<Veiculo>)
    requires Valid(veiculos)
    ensures Valid(r)
    ensures VeiculoHerdado(m) ==> r == veiculos
  {
    if VeiculoHerdado(m) then veiculos else AcumulaVeiculo(veiculos, m)
  }

  /** The `veiculos` object after the forEach as written. */
  function VeiculosPorIdAsWritten(ms: seq<Manutencao>): (o: Obj<Veiculo>)
    ensures Valid(o)
  {
    if ms == [] then Empty() else AcumulaVeiculoAsWritten(VeiculosPorIdAsWritten(ms[..|ms| - 1]), ms[|ms| - 1])
  }

  /** getVeiculoMaisProblemas as written: the reduce over the own entries that the loop created. */
  function VeiculoMaisProblemasAsWritten(ms: seq<Manutencao>): Option<Veiculo> {
    var lista := Values(VeiculosPorIdAsWritten(ms));
    if |lista| == 0 then None else Some(lista[MaisProblemas(lista)])
  }

  /** As written, the records of inherited-name vehicles are simply not counted. */
  lemma {:induction false} AsWrittenSkipsInheritedIds(ms: seq<Manutencao>)
    ensures VeiculosPorIdAsWritten(ms) == VeiculosPorId(Filter(ms, VeiculoProprio))
    ensures VeiculoMaisProblemasAsWritten(ms) == VeiculoMaisProblemas(Filter(ms, VeiculoProprio))
  {
    if ms != [] {
      var p, m := ms[..|ms| - 1], ms[|ms| - 1];
      assert ms == p + [m];
      AsWrittenSkipsInheritedIds(p);
      FilterSnoc(p, m, VeiculoProprio);
      var f := Filter(p, VeiculoProprio);
      if VeiculoProprio(m) {
        assert Filter(ms, VeiculoProprio) == f + [m];
        assert (f + [m])[..|f|] == f;
      } else {
        assert Filter(ms, VeiculoProprio) == f + [];
        assert f + [] == f;
      }
    }
  }

  /** As written, the result is null exactly when every record's vehicle id is an inherited name. */
  lemma VeiculoMaisProblemasAsWrittenNone(ms: seq<Manutencao>)
    ensures VeiculoMaisProblemasAsWritten(ms).None? <==> forall m :: m in ms ==> VeiculoHerdado(m)
  {
    AsWrittenSkipsInheritedIds(ms);
    var f := Filter(ms, VeiculoProprio);
    VeiculoMaisProblemasNone(f);
    if f != [] {
      assert f[0] in f;
    }
  }

  /** A single record of truck "constructor": the program as written returns null, the corrected count finds it. */
  lemma InheritedVehicleIdIsDropped()
    ensures var m := Manutencao(JNum(7), None, Some(100.0), "2024-10-01", JNull, Some(CaminhaoRef(JStr("constructor"), Some("ABC-1234"))));
      && VeiculoMaisProblemasAsWritten([m]).None?
      && VeiculoMaisProblemas([m]).Some?
  {
    var m := Manutencao(JNum(7), None, Some(100.0), "2024-10-01", JNull, Some(CaminhaoRef(JStr("constructor"), Some("ABC-1234"))));
    assert !IsDigit("constructor"[0]);
    assert VeiculoKey(m) == Name("constructor");
    VeiculoMaisProblemasAsWrittenNone([m]);
    VeiculoMaisProblemasNone([m]);
  }

  /** Away from inherited names the program as written and the corrected count agree. */
  lemma {:induction false} VeiculoAsWrittenAgreesOffPrototypeNames(ms: seq<Manutencao>)
    requires forall m :: m in ms ==> !VeiculoHerdado(m)
    ensures VeiculosPorIdAsWritten(ms) == VeiculosPorId(ms)
    ensures VeiculoMaisProblemasAsWritten(ms) == VeiculoMaisProblemas(ms)
  {
    if ms != [] {
      var p := ms[..|ms| - 1];
      assert forall m :: m in p ==> m in ms;
      VeiculoAsWrittenAgreesOffPrototypeNames(p);
      assert ms[|ms| - 1] in ms;
    }
  }

  // ---------------------------------------------------------------------------
  // Responses, timeouts and the mock fallbacks
  // ---------------------------------------------------------------------------

  /** What `fetch` resolved to: its status, what `text()` and `json()` settle to. */
  datatype Response<T> = Response(ok: bool, status: nat, text: Settled<string>, json: Settled<T>)

  /** The outcome of a request: a response, the 10 s abort timer firing, or a network error. */
  datatype FetchOutcome<T> = Responded(response: Response<T>) | TimedOut | NetworkError(message: string)

  const TimeoutMessage: string := "Tempo de requisição excedido"

  const HttpErrorPrefix: string := "HTTP error! status: "

  /** fetchWithTimeout: an abort becomes the timeout message; other failures pass through. */
  function FetchWithTimeout<T>(o: FetchOutcome<T>): Settled<Response<T>> {
    match o
    case Responded(r) => Fulfilled(r)
    case TimedOut => Rejected(TimeoutMessage)
    case NetworkError(msg) => Rejected(msg)
  }

  /** handleResponse */
  function HandleResponse<T>(r: Response<T>): (s: Settled<T>)
    ensures r.ok ==> s == r.json
    ensures !r.ok ==> s.Rejected? && s.message != ""
  {
    if !r.ok then
      var text := if r.text.Fulfilled? then r.text.value else "";
      Rejected(if text != "" then text else HttpErrorPrefix + NatToString(r.status))
    else r.json
  }

  /** The status number a "HTTP error! status: N" message carries, if it is one. */
  function StatusOfMessage(msg: string): Option<nat> {
    if |msg| > |HttpErrorPrefix| && msg[..|HttpErrorPrefix|] == HttpErrorPrefix && AllDigits(msg[|HttpErrorPrefix|..])
    then Some(ParseNat(msg[|HttpErrorPrefix|..]))
    else None
  }

  /**
   * A failed response is reported by its body text when that is non-empty, and
   * otherwise by a message from which its status reads back.
   */
  lemma HandleResponseFailure<T>(r: Response<T>)
    requires !r.ok
    ensures r.text.Fulfilled? && r.text.value != "" ==> HandleResponse(r) == Rejected(r.text.value)
    ensures !(r.text.Fulfilled? && r.text.value != "") ==>
              HandleResponse(r).Rejected? && StatusOfMessage(HandleResponse(r).message) == Some(r.status)
  {
    if !(r.text.Fulfilled? && r.text.value != "") {
      var msg := HandleResponse(r).message;
      assert msg[..|HttpErrorPrefix|] == HttpErrorPrefix;
      assert msg[|HttpErrorPrefix|..] == NatToString(r.status);
      ParseNatToString(r.status);
    }
  }

  /** `await handleResponse(await fetchWithTimeout(url))` */
  function Request<T>(o: FetchOutcome<T>): Settled<T> {
    match FetchWithTimeout(o)
    case Fulfilled(r) => HandleResponse(r)
    case Rejected(e) => Rejected(e)
  }

  /** A request succeeds exactly when a response arrived, it was ok and its body parsed. */
  lemma RequestOutcome<T>(o: FetchOutcome<T>)
    ensures Request(o).Fulfilled? <==> o.Responded? && o.response.ok && o.response.json.Fulfilled?
    ensures Request(o).Fulfilled? ==> Request(o).value == o.response.json.value
    ensures o.TimedOut? ==> Request(o) == Rejected(TimeoutMessage)
  {
  }

  const UseMockData: bool := true

  /** The catch block of every API function: with mock data on, a failure yields the fixture value. */
  function ComFallback<T>(s: Settled<T>, mock: T): Settled<T> {
    if s.Fulfilled? || !UseMockData then s else Fulfilled(mock)
  }

  /** `m.caminhao.id === caminhaoId` */
  predicate DoCaminhao(m: Manutencao, caminhaoId: JsValue) {
    m.caminhao.Some? && m.caminhao.value.id == caminhaoId
  }

  /** The filter callback `m => m.caminhao.id === caminhaoId`. */
  function DoCaminhaoFiltro(caminhaoId: JsValue): Manutencao -> bool {
    m => DoCaminhao(m, caminhaoId)
  }

  function GetManutencoesCaminhao(caminhaoId: JsValue, o: FetchOutcome<seq<Manutencao>>): Settled<seq<Manutencao>> {
    ComFallback(Request(o), Filter(MockManutencoes, DoCaminhaoFiltro(caminhaoId)))
  }

  function GetTodasManutencoes(o: FetchOutcome<seq<Manutencao>>): Settled<seq<Manutencao>> {
    ComFallback(Request(o), MockManutencoes)
  }

  /** `{ ...manutencaoData, id: Date.now() }`, with the clock reading as a parameter. */
  function CriarManutencao(dados: Obj<JsValue>, agora: int, o: FetchOutcome<Obj<JsValue>>): Settled<Obj<JsValue>>
    requires Valid(dados)
  {
    ComFallback(Request(o), Set(dados, Name("id"), JNum(agora)))
  }

  /** `{ ...manutencaoData, id }` */
  function AtualizarManutencao(id: JsValue, dados: Obj<JsValue>, o: FetchOutcome<Obj<JsValue>>): Settled<Obj<JsValue>>
    requires Valid(dados)
  {
    ComFallback(Request(o), Set(dados, Name("id"), id))
  }

  /** `{ success: true }` */
  function DeletarManutencao(id: JsValue, o: FetchOutcome<Obj<JsValue>>): Settled<Obj<JsValue>> {
    ComFallback(Request(o), Set(Empty(), Name("success"), JBool(true)))
  }

  /** `{ ...alertaData, id: Date.now(), caminhaoId }` */
  function CriarAlerta(caminhaoId: JsValue, dados: Obj<JsValue>, agora: int, o: FetchOutcome<Obj<JsValue>>): Settled<Obj<JsValue>>
    requires Valid(dados)
  {
    ComFallback(Request(o), Set(Set(dados, Name("id"), JNum(agora)), Name("caminhaoId"), caminhaoId))
  }

  /** The filter callback `a => a.caminhaoId === caminhaoId`. */
  function AlertaDoCaminhao(caminhaoId: JsValue): Alerta -> bool {
    (a: Alerta) => a.caminhaoId == caminhaoId
  }

  function GetAlertasCaminhao(caminhaoId: JsValue, o: FetchOutcome<seq<Alerta>>): Settled<seq<Alerta>> {
    ComFallback(Request(o), Filter(MockAlertas, AlertaDoCaminhao(caminhaoId)))
  }

  function GetTodosCaminhoes(o: FetchOutcome<seq<Caminhao>>): Settled<seq<Caminhao>> {
    ComFallback(Request(o), MockCaminhoes)
  }

  /** The find callback `c => c.id === id`. */
  function CaminhaoComId(id: JsValue): Caminhao -> bool {
    (c: Caminhao) => c.id == id
  }

  /** `MOCK_CAMINHOES.find(c => c.id === id) || null` */
  function GetCaminhaoPorId(id: JsValue, o: FetchOutcome<Option<Caminhao>>): Settled<Option<Caminhao>> {
    ComFallback(Request(o), Find(MockCaminhoes, CaminhaoComId(id)))
  }

  /** The read functions never reject: a successful request gives its body, a failed one the fixtures. */
  lemma ReadsFallBackOnFixtures(caminhaoId: JsValue, o: FetchOutcome<seq<Manutencao>>)
    ensures Request(o).Fulfilled? ==> GetManutencoesCaminhao(caminhaoId, o) == Request(o)
    ensures Request(o).Rejected? ==>
      && GetManutencoesCaminhao(caminhaoId, o).Fulfilled?
      && IsSubsequence(GetManutencoesCaminhao(caminhaoId, o).value, MockManutencoes)
      && (forall m :: m in GetManutencoesCaminhao(caminhaoId, o).value <==> m in MockManutencoes && DoCaminhao(m, caminhaoId))
    ensures Request(o).Rejected? ==> GetTodasManutencoes(o) == Fulfilled(MockManutencoes)
  {
    FilterIsSubsequence(MockManutencoes, DoCaminhaoFiltro(caminhaoId));
  }

  /** Filtering the maintenance fixtures, one record at a time. */
  lemma FilterMockManutencoes(p: Manutencao -> bool)
    ensures Filter(MockManutencoes, p)
            == (if p(MockManutencoes[0]) then [MockManutencoes[0]] else [])
             + (if p(MockManutencoes[1]) then [MockManutencoes[1]] else [])
             + (if p(MockManutencoes[2]) then [MockManutencoes[2]] else [])
             + (if p(MockManutencoes[3]) then [MockManutencoes[3]] else [])
  {
    var ms := MockManutencoes;
    assert [ms[0]] == [] + [ms[0]];
    FilterSnoc([], ms[0], p);
    FilterSnoc([ms[0]], ms[1], p);
    FilterSnoc([ms[0], ms[1]], ms[2], p);
    FilterSnoc([ms[0], ms[1], ms[2]], ms[3], p);
    assert [ms[0]] + [ms[1]] == [ms[0], ms[1]];
    assert [ms[0], ms[1]] + [ms[2]] == [ms[0], ms[1], ms[2]];
    assert [ms[0], ms[1], ms[2]] + [ms[3]] == ms;
  }

  /** With the fixtures, truck 1 has maintenances 1 and 3. */
  lemma ManutencoesCaminhaoFixtures(o: FetchOutcome<seq<Manutencao>>)
    requires Request(o).Rejected?
    ensures GetManutencoesCaminhao(JNum(1), o) == Fulfilled([MockManutencoes[0], MockManutencoes[2]])
  {
    var ms := MockManutencoes;
    var um := DoCaminhaoFiltro(JNum(1));
    FilterMockManutencoes(um);
    assert um(ms[0]) && !um(ms[1]) && um(ms[2]) && !um(ms[3]);
    assert [ms[0]] + [] + [ms[2]] + [] == [ms[0], ms[2]];
    assert GetManutencoesCaminhao(JNum(1), o) == Fulfilled(Filter(ms, um));
  }

  /** The comparison is strict: the string "1" matches no fixture, whose ids are numbers. */
  lemma ManutencoesCaminhaoStrictId(o: FetchOutcome<seq<Manutencao>>)
    requires Request(o).Rejected?
    ensures GetManutencoesCaminhao(JStr("1"), o) == Fulfilled([])
  {
    var ms := MockManutencoes;
    var texto := DoCaminhaoFiltro(JStr("1"));
    FilterMockManutencoes(texto);
    assert !texto(ms[0]) && !texto(ms[1]) && !texto(ms[2]) && !texto(ms[3]);
    assert GetManutencoesCaminhao(JStr("1"), o) == Fulfilled(Filter(ms, texto));
  }

  /** With the fixtures, truck 1 has the fuel alert and the string "1" matches nothing. */
  lemma AlertasCaminhaoFixtures(o: FetchOutcome<seq<Alerta>>)
    requires Request(o).Rejected?
    ensures GetAlertasCaminhao(JNum(1), o) == Fulfilled([MockAlertas[0]])
    ensures GetAlertasCaminhao(JStr("1"), o) == Fulfilled([])
  {
    var al := MockAlertas;
    var um, texto := AlertaDoCaminhao(JNum(1)), AlertaDoCaminhao(JStr("1"));
    assert [al[0]] == [] + [al[0]];
    assert [al[0]] + [al[1]] == al;
    FilterSnoc([], al[0], um);
    FilterSnoc([al[0]], al[1], um);
    FilterSnoc([], al[0], texto);
    FilterSnoc([al[0]], al[1], texto);
    assert um(al[0]) && !um(al[1]) && !texto(al[0]) && !texto(al[1]);
    assert Filter(al, um) == [al[0]];
    assert GetAlertasCaminhao(JNum(1), o) == Fulfilled(Filter(al, um));
    assert GetAlertasCaminhao(JStr("1"), o) == Fulfilled(Filter(al, texto));
  }

  /** With the fixtures, truck 2 is found, truck 4 is not, and the lookup never rejects. */
  lemma CaminhaoPorIdFixtures(id: JsValue, o: FetchOutcome<Option<Caminhao>>)
    requires Request(o).Rejected?
    ensures GetCaminhaoPorId(JNum(2), o) == Fulfilled(Some(MockCaminhoes[1]))
    ensures GetCaminhaoPorId(JNum(4), o) == Fulfilled(None)
    ensures GetCaminhaoPorId(id, o).Fulfilled?
  {
    var cs := MockCaminhoes;
    var dois, quatro := CaminhaoComId(JNum(2)), CaminhaoComId(JNum(4));
    assert !dois(cs[0]) && dois(cs[1]);
    assert !quatro(cs[0]) && !quatro(cs[1]) && !quatro(cs[2]);
    assert cs[1..][0] == cs[1] && cs[1..][1..][0] == cs[2] && cs[1..][1..][1..] == [];
    assert Find(cs, dois) == Find(cs[1..], dois) == Some(cs[1]);
    assert Find(cs, quatro) == Find(cs[1..], quatro) == Find(cs[1..][1..], quatro) == Find(cs[1..][1..][1..], quatro);
  }

  /**
   * The simulated writes: create and update return the payload with `id` set (a new key
   * goes last, an existing one keeps its place), create-alert also sets `caminhaoId`,
   * and delete returns `{ success: true }`.
   */
  lemma WritesFallBack(id: JsValue, caminhaoId: JsValue, dados: Obj<JsValue>, agora: int, o: FetchOutcome<Obj<JsValue>>)
    requires Valid(dados)
    requires Request(o).Rejected?
    ensures var r := CriarManutencao(dados, agora, o);
      && r.Fulfilled? && r.value.vals == dados.vals[Name("id") := JNum(agora)]
      && r.value.keys == (if Name("id") in dados.vals then dados.keys else dados.keys + [Name("id")])
    ensures var r := AtualizarManutencao(id, dados, o);
      && r.Fulfilled? && r.value.vals == dados.vals[Name("id") := id]
      && r.value.keys == (if Name("id") in dados.vals then dados.keys else dados.keys + [Name("id")])
    ensures var r := CriarAlerta(caminhaoId, dados, agora, o);
      && r.Fulfilled?
      && r.value.vals == dados.vals[Name("id") := JNum(agora)][Name("caminhaoId") := caminhaoId]
      && r.value.keys == (if Name("id") in dados.vals then dados.keys else dados.keys + [Name("id")])
           + (if Name("caminhaoId") in dados.vals then [] else [Name("caminhaoId")])
    ensures DeletarManutencao(id, o) == Fulfilled(Obj([Name("success")], map[Name("success") := JBool(true)]))
  {
    var comId := Set(dados, Name("id"), JNum(agora));
    assert Name("caminhaoId") in comId.vals <==> Name("caminhaoId") in dados.vals;
    assert CriarAlerta(caminhaoId, dados, agora, o) == Fulfilled(Set(comId, Name("caminhaoId"), caminhaoId));
    var e: Obj<JsValue> := Empty();
    var d := Set(e, Name("success"), JBool(true));
    assert Name("success") !in e.vals;
    assert d.keys == [] + [Name("success")] == [Name("success")];
    assert d.vals == map[Name("success") := JBool(true)];
    assert DeletarManutencao(id, o) == Fulfilled(d);
  }

  // ---------------------------------------------------------------------------
  // Dates
  // ---------------------------------------------------------------------------

  /**
   * formatarData: 'N/A' for a falsy argument, otherwise `dd/mm/yyyy` of the local date
   * `new Date(dataString)` holds (None: an Invalid Date, whose getters give NaN).
   */
  function FormatarData(dataString: Option<string>, data: Option<Calendar.Date>): string
    requires data.Some? ==> Calendar.ValidDate(data.value)
  {
    if !Truthy(dataString) then "N/A"
    else match data
      case None => "NaN/NaN/NaN"
      case Some(d) => FormatarDataCurta(dataString, data) + "/" + IntToString(d.year)
  }

  /** formatarDataCurta: 'N/A' for a falsy argument, otherwise `dd/mm`. */
  function FormatarDataCurta(dataString: Option<string>, data: Option<Calendar.Date>): string
    requires data.Some? ==> Calendar.ValidDate(data.value)
  {
    if !Truthy(dataString) then "N/A"
    else match data
      case None => "NaN/NaN"
      case Some(d) => PadStart2(NatToString(d.day)) + "/" + PadStart2(NatToString(d.month + 1))
  }

  /** Reads a `dd/mm/yyyy` string back into a date. */
  function LerData(s: string): Option<Calendar.Date> {
    if |s| > 6 && s[2] == '/' && s[5] == '/' && AllDigits(s[..2]) && AllDigits(s[3..5]) && AllDigits(s[6..])
    then Some(Calendar.Date(ParseNat(s[6..]), ParseNat(s[3..5]) - 1, ParseNat(s[..2])))
    else None
  }

  /**
   * The formatted date loses nothing: day, 1-based month and year read back from it
   * (for a year 0 or later); the short form is its first five characters.
   */
  lemma FormatarDataRoundTrip(dataString: Option<string>, d: Calendar.Date)
    requires Truthy(dataString) && Calendar.ValidDate(d) && d.year >= 0
    ensures |FormatarDataCurta(dataString, Some(d))| == 5
    ensures FormatarData(dataString, Some(d)) == FormatarDataCurta(dataString, Some(d)) + "/" + NatToString(d.year)
    ensures LerData(FormatarData(dataString, Some(d))) == Some(d)
  {
    var s := FormatarData(dataString, Some(d));
    var dd := PadStart2(NatToString(d.day));
    var mm := PadStart2(NatToString(d.month + 1));
    PadStart2TwoDigits(d.day);
    PadStart2TwoDigits(d.month + 1);
    ParseNatToString(d.year);
    assert s == dd + "/" + mm + "/" + NatToString(d.year);
    assert s[..2] == dd && s[3..5] == mm && s[6..] == NatToString(d.year);
  }

  /** The number of milliseconds in a day. */
  const MsPorDia: int := 1000 * 60 * 60 * 24

  /**
   * isManutencaoAtrasada with the clock reading `agora` and the instant `new Date(dataInicio)`
   * stands for (None: an Invalid Date, whose difference is NaN).
   */
  function IsManutencaoAtrasada(m: Manutencao, agora: int, inicio: Option<int>): bool {
    if TruthyValue(m.dataConclusao) then false
    else match inicio
      case None => false
      case Some(t) => (agora - t) / MsPorDia > 7
  }

  /** Overdue means: not concluded by a truthy date, and started at least eight whole days ago. */
  lemma AtrasadaMeansEightDays(m: Manutencao, agora: int, inicio: Option<int>)
    ensures IsManutencaoAtrasada(m, agora, inicio) <==>
              !TruthyValue(m.dataConclusao) && inicio.Some? && agora - inicio.value >= 8 * MsPorDia
  {
  }

  /**
   * A record without `dataConclusao` is listed as concluded and can still be overdue:
   * the two helpers read the field differently.
   */
  lemma MissingDateIsConcludedAndOverdue()
    ensures var m := Manutencao(JNum(9), None, None, "1970-01-01T00:00:00.000Z", JUndefined, None);
      && GetManutencoesConcluidas([m]) == [m]
      && IsManutencaoAtrasada(m, 8 * MsPorDia, Some(0))
  {
    var m := Manutencao(JNum(9), None, None, "1970-01-01T00:00:00.000Z", JUndefined, None);
    assert [m][..0] == [];
  }

  /** Started in the current month and year; an Invalid Date matches nothing. */
  predicate NoMes(inicio: Option<Calendar.Date>, hoje: Calendar.Date) {
    inicio.Some? && inicio.value.month == hoje.month && inicio.value.year == hoje.year
  }

  /** getManutencoesMesAtual, with today's date and the parse of `new Date(dataInicio)` as parameters. */
  function GetManutencoesMesAtual(ms: seq<Manutencao>, hoje: Calendar.Date, parse: string -> Option<Calendar.Date>): (r: seq<Manutencao>)
    ensures forall m :: m in r <==> m in ms && NoMes(parse(m.dataInicio), hoje)
    ensures IsSubsequence(r, ms)
    ensures forall m :: multiset(r)[m] == if NoMes(parse(m.dataInicio), hoje) then multiset(ms)[m] else 0
  {
    FilterIsSubsequence(ms, (m: Manutencao) => NoMes(parse(m.dataInicio), hoje));
    FilterCounts(ms, (m: Manutencao) => NoMes(parse(m.dataInicio), hoje));
    Filter(ms, (m: Manutencao) => NoMes(parse(m.dataInicio), hoje))
  }
}
