/**
 * `CatalogoPecas` (src/services/CatalogoPecas.ts): the fixed catalogue of the 36 standard parts
 * an aircraft can be built from, and the read-only queries over it (by position, by search term,
 * by origin, by supplier, and the name/supplier validation).
 *
 * The class only has static members over one private static table. Here the table is the value
 * of a `Catalogo`, the static methods are its member functions, and `CATALOGO` is the class
 * itself: the queries are proved for any table, and the facts about the fixed table separately.
 */
module CatalogoPecas {
  import opened Comum
  import opened Enums
  import opened Texto

  datatype PecaPadrao = PecaPadrao(nome: string, tipo: TipoPeca, fornecedor: string)

  /** A catalogue entry together with its position in the catalogue. */
  datatype PecaComIndice = PecaComIndice(nome: string, tipo: TipoPeca, fornecedor: string, indice: nat)
  {
    function Peca(): PecaPadrao {
      PecaPadrao(nome, tipo, fornecedor)
    }
  }

  /** The catalogue, in its fixed order (accented letters written as code points). */
  const PECAS_PADRAO: seq<PecaPadrao> := [
      PecaPadrao("Motor Pratt & Whitney PW1100G", IMPORTADA, "Pratt & Whitney"),
      PecaPadrao("Motor CFM56-7B", IMPORTADA, "CFM International"),
      PecaPadrao("Motor Rolls-Royce BR725", IMPORTADA, "Rolls-Royce"),
      PecaPadrao("Fuselagem Dianteira", NACIONAL, "Embraer Fabrica\U{00E7}\U{00E3}o"),
      PecaPadrao("Fuselagem Central", NACIONAL, "Embraer Fabrica\U{00E7}\U{00E3}o"),
      PecaPadrao("Fuselagem Traseira", NACIONAL, "Embraer Fabrica\U{00E7}\U{00E3}o"),
      PecaPadrao("Cone de Cauda", NACIONAL, "Embraer Fabrica\U{00E7}\U{00E3}o"),
      PecaPadrao("Asa Principal", NACIONAL, "Embraer Aeroestruturas"),
      PecaPadrao("Winglet", NACIONAL, "Embraer Aeroestruturas"),
      PecaPadrao("Flap", NACIONAL, "Liebherr Brasil"),
      PecaPadrao("Aileron", NACIONAL, "Liebherr Brasil"),
      PecaPadrao("Trem de Pouso Principal", IMPORTADA, "Liebherr Aerospace"),
      PecaPadrao("Trem de Pouso do Nariz", IMPORTADA, "Liebherr Aerospace"),
      PecaPadrao("Sistema Hidr\U{00E1}ulico Principal", IMPORTADA, "Parker Hannifin"),
      PecaPadrao("Sistema Hidr\U{00E1}ulico Reserva", IMPORTADA, "Parker Hannifin"),
      PecaPadrao("Sistema de Controle de Voo", IMPORTADA, "Honeywell"),
      PecaPadrao("Computador de Voo", IMPORTADA, "Thales"),
      PecaPadrao("Radar Meteorol\U{00F3}gico", IMPORTADA, "Honeywell"),
      PecaPadrao("Sistema de Navega\U{00E7}\U{00E3}o GPS", IMPORTADA, "Garmin"),
      PecaPadrao("Transceptor VHF", IMPORTADA, "Collins Aerospace"),
      PecaPadrao("Transponder", IMPORTADA, "Collins Aerospace"),
      PecaPadrao("Assentos Executivos", NACIONAL, "Recaro Brasil"),
      PecaPadrao("Assentos Econ\U{00F4}micos", NACIONAL, "Recaro Brasil"),
      PecaPadrao("Galley Compacta", IMPORTADA, "Zodiac Aerospace"),
      PecaPadrao("Banheiro Executivo", IMPORTADA, "Zodiac Aerospace"),
      PecaPadrao("APU (Auxiliary Power Unit)", IMPORTADA, "Honeywell"),
      PecaPadrao("Sistema de Ar Condicionado", IMPORTADA, "Liebherr Aerospace"),
      PecaPadrao("Sistema de Pressuriza\U{00E7}\U{00E3}o", IMPORTADA, "Liebherr Aerospace"),
      PecaPadrao("Sistema de Combust\U{00ED}vel", IMPORTADA, "Parker Hannifin"),
      PecaPadrao("Gerador El\U{00E9}trico Principal", IMPORTADA, "Hamilton Sundstrand"),
      PecaPadrao("Gerador El\U{00E9}trico Auxiliar", IMPORTADA, "Hamilton Sundstrand"),
      PecaPadrao("Bateria Principal", IMPORTADA, "Saft"),
      PecaPadrao("Sistema de Ilumina\U{00E7}\U{00E3}o LED", NACIONAL, "Helibras"),
      PecaPadrao("Sistema de Oxig\U{00EA}nio", IMPORTADA, "Air Liquide"),
      PecaPadrao("Sistema de Extin\U{00E7}\U{00E3}o de Inc\U{00EA}ndio", IMPORTADA, "Kidde Aerospace"),
      PecaPadrao("Colete Salva-Vidas", NACIONAL, "Embraer Safety")
    ]

  // ---------------------------------------------------------------- generic helpers

  /** `Array.prototype.filter` with a pure predicate. */
  function Filtrar<T>(s: seq<T>, f: T -> bool): (r: seq<T>)
    ensures |r| <= |s|
    ensures forall x :: x in r ==> x in s && f(x)
    ensures forall x :: x in s && f(x) ==> x in r
  {
    if s == [] then []
    else (if f(s[0]) then [s[0]] else []) + Filtrar(s[1..], f)
  }

  /** `Array.prototype.some` with a pure predicate. */
  function Algum<T>(s: seq<T>, f: T -> bool): (r: bool)
    ensures r <==> exists i :: 0 <= i < |s| && f(s[i])
  {
    if s == [] then false
    else
      var resto := Algum(s[1..], f);
      assert forall i :: 1 <= i < |s| ==> s[i] == s[1..][i - 1];
      f(s[0]) || resto
  }

  /** A filter whose predicate holds everywhere keeps the whole list. */
  lemma {:induction false} FiltrarTudo<T>(s: seq<T>, f: T -> bool)
    requires forall i :: 0 <= i < |s| ==> f(s[i])
    ensures Filtrar(s, f) == s
  {
    if s != [] {
      FiltrarTudo(s[1..], f);
      assert [s[0]] + s[1..] == s;
    }
  }

  /** Two filters with complementary predicates split the list between them. */
  lemma {:induction false} FiltrarComplementares<T>(s: seq<T>, f: T -> bool, g: T -> bool)
    requires forall i :: 0 <= i < |s| ==> (f(s[i]) <==> !g(s[i]))
    ensures |Filtrar(s, f)| + |Filtrar(s, g)| == |s|
  {
    if s != [] {
      FiltrarComplementares(s[1..], f, g);
    }
  }

  /** Positions strictly increase along the list. */
  predicate Crescente(s: seq<PecaComIndice>) {
    forall a, b :: 0 <= a < b < |s| ==> s[a].indice < s[b].indice
  }

  /** An entry placed before an increasing list whose positions all exceed its own keeps it increasing. */
  lemma CrescenteCons(x: PecaComIndice, s: seq<PecaComIndice>)
    requires Crescente(s)
    requires forall i :: 0 <= i < |s| ==> x.indice < s[i].indice
    ensures Crescente([x] + s)
  {
    var r := [x] + s;
    forall a, b | 0 <= a < b < |r|
      ensures r[a].indice < r[b].indice
    {
      assert r[b] == s[b - 1];
      if a > 0 {
        assert r[a] == s[a - 1];
      }
    }
  }

  /** A filter keeps the relative order of what it keeps: increasing positions stay increasing. */
  lemma {:induction false} FiltrarPreservaOrdem(s: seq<PecaComIndice>, f: PecaComIndice -> bool)
    requires Crescente(s)
    ensures Crescente(Filtrar(s, f))
  {
    if s != [] {
      var cauda := s[1..];
      FiltrarPreservaOrdem(cauda, f);
      var rc := Filtrar(cauda, f);
      if f(s[0]) {
        forall i | 0 <= i < |rc|
          ensures s[0].indice < rc[i].indice
        {
          assert rc[i] in cauda;
          var j :| 0 <= j < |cauda| && cauda[j] == rc[i];
          assert cauda[j] == s[j + 1];
        }
        CrescenteCons(s[0], rc);
      }
    }
  }

  // ---------------------------------------------------------------- predicates of the queries

  /** The search term after `toLowerCase().trim()`. */
  function TermoDeBusca(termo: string): string {
    Trim(Minusculas(termo))
  }

  /** An entry matches a (normalised) term when its lower-cased name or supplier contains it. */
  predicate Corresponde(nome: string, fornecedor: string, termo: string) {
    Contem(Minusculas(nome), termo) || Contem(Minusculas(fornecedor), termo)
  }

  /** The predicate `buscarPecas` filters with, for a normalised term. */
  function CorrespondeA(t: string): PecaComIndice -> bool {
    (h: PecaComIndice) => Corresponde(h.nome, h.fornecedor, t)
  }

  /** The predicate `obterPecasPorTipo` filters with. */
  function DoTipo(tipo: TipoPeca): PecaPadrao -> bool {
    (p: PecaPadrao) => p.tipo == tipo
  }

  /** The predicate `obterPecasPorFornecedor` filters with, for a normalised term. */
  function DoFornecedor(termo: string): PecaPadrao -> bool {
    (p: PecaPadrao) => Contem(Minusculas(p.fornecedor), termo)
  }

  /** The optional supplier of `validarPeca` is ignored when it is missing or empty (`!fornecedor`). */
  predicate FornecedorOmitido(fornecedor: Option<string>) {
    fornecedor.None? || fornecedor.value == []
  }

  /** One entry validates a name and an optional supplier, compared without regard to case. */
  predicate Valida(p: PecaPadrao, nome: string, fornecedor: Option<string>) {
    Minusculas(p.nome) == Minusculas(nome)
    && (FornecedorOmitido(fornecedor) || Minusculas(p.fornecedor) == Minusculas(fornecedor.value))
  }

  /** `.map((peca, indice) => ({ ...peca, indice }))`. */
  function ComIndices(ps: seq<PecaPadrao>): (r: seq<PecaComIndice>)
    ensures |r| == |ps|
    ensures forall i :: 0 <= i < |ps| ==> r[i].indice == i && r[i].Peca() == ps[i]
  {
    seq(|ps|, i requires 0 <= i < |ps| => PecaComIndice(ps[i].nome, ps[i].tipo, ps[i].fornecedor, i))
  }

  /**
   * Filtering the entries of `ps` paired with their positions: each kept pair carries the entry at
   * its position, every entry that passes is kept, and positions stay in table order.
   */
  lemma FiltroComIndices(ps: seq<PecaPadrao>, f: PecaComIndice -> bool)
    ensures var r := Filtrar(ComIndices(ps), f);
      && (forall h :: h in r ==> h.indice < |ps| && ps[h.indice] == h.Peca() && f(h))
      && (forall i :: 0 <= i < |ps| && f(ComIndices(ps)[i]) ==> exists h :: h in r && h.indice == i)
      && Crescente(r)
  {
    var todas := ComIndices(ps);
    FiltrarPreservaOrdem(todas, f);
    var r := Filtrar(todas, f);
    forall h | h in r
      ensures h.indice < |ps| && ps[h.indice] == h.Peca()
    {
      var j :| 0 <= j < |todas| && todas[j] == h;
    }
    forall i | 0 <= i < |ps| && f(todas[i])
      ensures exists h :: h in r && h.indice == i
    {
      assert todas[i] in r;
    }
  }

  /** The origin counts of `obterEstatisticas`. */
  datatype Estatisticas = Estatisticas(total: nat, nacionais: nat, importadas: nat)

  // ---------------------------------------------------------------- the class

  /** The class `CatalogoPecas`, as the value of its private static table `pecasPadrao`. */
  datatype Catalogo = Catalogo(pecas: seq<PecaPadrao>)
  {
    /** `obterQuantidadePecas`. */
    function ObterQuantidadePecas(): (n: nat)
      ensures n == |pecas|
    {
      |pecas|
    }

    /** `obterPecasDisponiveis`: a copy of the whole table. */
    function ObterPecasDisponiveis(): (r: seq<PecaPadrao>)
      ensures |r| == ObterQuantidadePecas()
      ensures forall i :: 0 <= i < |r| ==> r[i] == pecas[i]
    {
      pecas
    }

    /** `obterPecaPorIndice`: the entry at a position, or `null` outside the table. */
    function ObterPecaPorIndice(indice: int): (r: Option<PecaPadrao>)
      ensures r.Some? <==> 0 <= indice < ObterQuantidadePecas()
      ensures r.Some? ==> r.value == pecas[indice]
    {
      if 0 <= indice < |pecas| then Some(pecas[indice]) else None
    }

    /**
     * `buscarPecas`: a blank term finds nothing; otherwise exactly the entries whose name or
     * supplier contains the term, each with its own position, in table order.
     */
    function BuscarPecas(termo: string): (r: seq<PecaComIndice>)
      ensures TermoDeBusca(termo) == [] ==> r == []
      ensures forall h :: h in r ==>
        h.indice < |pecas| && pecas[h.indice] == h.Peca()
        && Corresponde(h.nome, h.fornecedor, TermoDeBusca(termo))
      ensures TermoDeBusca(termo) != [] ==>
        forall i :: 0 <= i < |pecas| && Corresponde(pecas[i].nome, pecas[i].fornecedor, TermoDeBusca(termo))
          ==> exists h :: h in r && h.indice == i
      ensures Crescente(r)
    {
      var t := TermoDeBusca(termo);
      if t == [] then []
      else
        FiltroComIndices(pecas, CorrespondeA(t));
        Filtrar(ComIndices(pecas), CorrespondeA(t))
    }

    /** `obterPecasPorTipo`: exactly the entries of one origin. */
    function ObterPecasPorTipo(tipo: TipoPeca): (r: seq<PecaPadrao>)
      ensures forall p :: p in r <==> p in pecas && p.tipo == tipo
    {
      Filtrar(pecas, DoTipo(tipo))
    }

    /** Every entry is either national or imported, so the two lists together hold the whole table. */
    lemma TiposParticionam()
      ensures |ObterPecasPorTipo(NACIONAL)| + |ObterPecasPorTipo(IMPORTADA)| == ObterQuantidadePecas()
    {
      FiltrarComplementares(pecas, DoTipo(NACIONAL), DoTipo(IMPORTADA));
    }

    /** `obterPecasPorFornecedor`: exactly the entries whose lower-cased supplier contains the term. */
    function ObterPecasPorFornecedor(fornecedor: string): (r: seq<PecaPadrao>)
      ensures forall p :: p in r <==>
        p in pecas && Contem(Minusculas(p.fornecedor), TermoDeBusca(fornecedor))
    {
      Filtrar(pecas, DoFornecedor(TermoDeBusca(fornecedor)))
    }

    /** Unlike `buscarPecas`, a blank supplier term matches every entry. */
    lemma PorFornecedorEmBranco(fornecedor: string)
      requires TermoDeBusca(fornecedor) == []
      ensures ObterPecasPorFornecedor(fornecedor) == ObterPecasDisponiveis()
    {
      forall i | 0 <= i < |pecas|
        ensures DoFornecedor([])(pecas[i])
      {
        ContemVazio(Minusculas(pecas[i].fornecedor));
      }
      FiltrarTudo(pecas, DoFornecedor([]));
    }

    /** `validarPeca`: some entry has this name (and this supplier, when one is given). */
    function ValidarPeca(nome: string, fornecedor: Option<string>): (r: bool)
      ensures r <==> exists i :: 0 <= i < |pecas| && Valida(pecas[i], nome, fornecedor)
    {
      Algum(pecas, (p: PecaPadrao) => Valida(p, nome, fornecedor))
    }

    /** Every entry validates under its own name, with or without its own supplier. */
    lemma EntradasSaoValidas(i: int)
      requires 0 <= i < ObterQuantidadePecas()
      ensures ValidarPeca(pecas[i].nome, None)
      ensures ValidarPeca(pecas[i].nome, Some(pecas[i].fornecedor))
    {
      assert Valida(pecas[i], pecas[i].nome, None);
      assert Valida(pecas[i], pecas[i].nome, Some(pecas[i].fornecedor));
    }

    /** `obterEstatisticas`, restricted to its counts: national and imported add up to the total. */
    function ObterEstatisticas(): (e: Estatisticas)
      ensures e.total == ObterQuantidadePecas()
      ensures e.nacionais + e.importadas == e.total
      ensures e.nacionais == |ObterPecasPorTipo(NACIONAL)| && e.importadas == |ObterPecasPorTipo(IMPORTADA)|
    {
      TiposParticionam();
      Estatisticas(|pecas|, |ObterPecasPorTipo(NACIONAL)|, |ObterPecasPorTipo(IMPORTADA)|)
    }
  }

  /** The class with its fixed table. */
  const CATALOGO: Catalogo := Catalogo(PECAS_PADRAO)

  /** The fixed table holds 36 parts. */
  lemma QuantidadeDoCatalogo()
    ensures CATALOGO.ObterQuantidadePecas() == 36
  {
  }
}
