/**
 * The session logic of src/sistema/SistemaAerocode.ts without its prompts: the permission
 * check against the logged-in user, the next-code generators, the choice of an aircraft by
 * list number or code, the five default stages of a new aircraft, starting and finishing a
 * stage, assigning an employee to a stage, recording a test, registering an employee and
 * the default administrator. Every answer the source reads from the console is a parameter,
 * and so are the clock readings.
 */
module SistemaAerocode {
  import opened Comum
  import opened Enums
  import opened Texto
  import opened ModeloFuncionario
  import opened ModeloEtapa
  import opened ModeloAeronave

  /** How an operation of the session ends. */
  datatype Desfecho =
    | PermissaoInsuficiente
    | SelecaoCancelada      // no aircraft chosen
    | EtapaInvalida
    | FuncionarioInvalido
    | UsuarioJaExiste
    | NivelInvalido
    | TipoInvalido
    | TesteDuplicado
    | ResultadoInvalido
    | NaoRealizado          // the stage refused the change
    | Realizado

  // ---------------------------------------------------------------- code generation

  /** `filter(c => !isNaN(c))` over values already parsed, NaN being `None`: the numbers, in order. */
  function Definidos(vs: seq<Option<int>>): (ns: seq<int>)
    ensures forall i :: 0 <= i < |vs| && vs[i].Some? ==> vs[i].value in ns
    ensures forall n :: n in ns ==> exists i :: 0 <= i < |vs| && vs[i] == Some(n)
  {
    if vs == [] then []
    else
      var n := |vs| - 1;
      var resto := Definidos(vs[..n]);
      assert forall i :: 0 <= i < n ==> vs[..n][i] == vs[i];
      if vs[n].Some? then resto + [vs[n].value] else resto
  }

  /** `Math.max(...ns)`. */
  function Maximo(ns: seq<int>): (m: int)
    requires ns != []
    ensures m in ns && forall n :: n in ns ==> n <= m
  {
    if |ns| == 1 then ns[0]
    else
      assert ns == [ns[0]] + ns[1..];
      var m := Maximo(ns[1..]);
      if ns[0] >= m then ns[0] else m
  }

  /**
   * `Math.max(...numbers) + 1` over the values that are numbers, none when no value is. The
   * result exceeds every number and is the least value doing so, being one above one of them.
   */
  function ProximoNumero(vs: seq<Option<int>>): (r: Option<int>)
    ensures r.None? <==> forall i :: 0 <= i < |vs| ==> vs[i].None?
    ensures r.Some? ==> AcimaDeTodos(vs, r.value) && UmAcimaDeAlgum(vs, r.value)
  {
    var ns := Definidos(vs);
    if |ns| == 0 then None else Some(Maximo(ns) + 1)
  }

  /** `codigos.map(c => parseInt(c))`. */
  function Lidos(codigos: seq<string>): (vs: seq<Option<int>>)
    ensures |vs| == |codigos| && forall i :: 0 <= i < |codigos| ==> vs[i] == ParseInt(codigos[i])
  {
    seq(|codigos|, i requires 0 <= i < |codigos| => ParseInt(codigos[i]))
  }

  /**
   * The next employee code: "1" when there is no employee or no code reads as a number;
   * otherwise the decimal text of one above the largest numeric code. It reads back as a
   * number above every numeric code, one above some code.
   */
  function ProximoCodigoFuncionario(codigos: seq<string>): (r: string)
    ensures ProximoNumero(Lidos(codigos)).None? ==> r == "1"
    ensures ParseInt(r).Some?
    ensures forall i :: 0 <= i < |codigos| && ParseInt(codigos[i]).Some? ==>
              ParseInt(codigos[i]).value < ParseInt(r).value
    ensures ProximoNumero(Lidos(codigos)).Some? ==>
              exists i :: 0 <= i < |codigos| && ParseInt(codigos[i]) == Some(ParseInt(r).value - 1)
    ensures r == NumeroParaTexto(ParseInt(r).value)
  {
    ParseIntNumeroParaTexto(1);
    if |codigos| == 0 then "1"
    else
      match ProximoNumero(Lidos(codigos))
      case None => "1"
      case Some(n) =>
        ParseIntNumeroParaTexto(n);
        NumeroParaTexto(n)
  }

  /** The number an aircraft code carries: `parseInt` of its digits, none when it has no digit. */
  function NumeroDoCodigo(codigo: string): (r: Option<int>)
    ensures r.Some? ==> r.value >= 0
  {
    ParseIntSoDigitos(ApenasDigitos(codigo));
    ParseInt(ApenasDigitos(codigo))
  }

  /** `codigos.map(c => parseInt(c.replace(/[^0-9]/g, '')))`. */
  function NumerosDosCodigos(codigos: seq<string>): (vs: seq<Option<int>>)
    ensures |vs| == |codigos| && forall i :: 0 <= i < |codigos| ==> vs[i] == NumeroDoCodigo(codigos[i])
    ensures forall i :: 0 <= i < |vs| && vs[i].Some? ==> vs[i].value >= 0
  {
    seq(|codigos|, i requires 0 <= i < |codigos| => NumeroDoCodigo(codigos[i]))
  }

  /** Padding the digits of `m` with zeros to three places keeps only digits and the value `m`. */
  lemma DigitosPreenchidos(m: nat)
    ensures var p := PadStart(Decimal(m), 3, '0');
            p != [] && SoDigitos(p, 10) && ValorEm(p, 10) == m
            && forall i :: 0 <= i < |p| ==> '0' <= p[i] <= '9'
  {
    var d := Decimal(m);
    var p := PadStart(d, 3, '0');
    var k := |p| - |d|;
    assert p == Repetir('0', k) + d;
    ZerosAEsquerda(k, d);
    ValorDecimal(m);
  }

  /** The letters before the digits are dropped when the digits are extracted. */
  lemma DigitosAposAer(p: string)
    requires forall i :: 0 <= i < |p| ==> '0' <= p[i] <= '9'
    ensures ApenasDigitos("AER" + p) == p
  {
    ApenasDigitosDeDigitos(p);
    ApenasDigitosConcat("AER", p);
    assert ApenasDigitos("AER") == [];
  }

  /** "AER" followed by the digits of `m` padded to three places carries the number `m`. */
  lemma NumeroDoCodigoAer(m: nat)
    ensures NumeroDoCodigo("AER" + PadStart(Decimal(m), 3, '0')) == Some(m)
  {
    var p := PadStart(Decimal(m), 3, '0');
    DigitosPreenchidos(m);
    DigitosAposAer(p);
    ParseIntSoDigitos(p);
  }

  /** The first aircraft code is the padded form of 1. */
  lemma Aer001()
    ensures "AER" + PadStart(Decimal(1), 3, '0') == "AER001"
  {
    assert Decimal(1) == "1";
    assert Repetir('0', 2) == "00";
  }

  /** A code built as "AER" and a suffix starts with "AER". */
  lemma PrefixoAer(p: string)
    ensures |"AER" + p| == 3 + |p| && ("AER" + p)[..3] == "AER" && ("AER" + p)[3..] == p
  {
  }

  /** Every value that is a number is below `v`. */
  predicate AcimaDeTodos(vs: seq<Option<int>>, v: int) {
    forall i :: 0 <= i < |vs| && vs[i].Some? ==> vs[i].value < v
  }

  /** Some value is the number `v - 1`. */
  predicate UmAcimaDeAlgum(vs: seq<Option<int>>, v: int) {
    exists i :: 0 <= i < |vs| && vs[i] == Some(v - 1)
  }

  /** Over values that are never negative, the next number is at least 1. */
  lemma ProximoNumeroPositivo(vs: seq<Option<int>>)
    requires forall i :: 0 <= i < |vs| && vs[i].Some? ==> vs[i].value >= 0
    ensures ProximoNumero(vs).Some? ==> ProximoNumero(vs).value >= 1
  {
    var r := ProximoNumero(vs);
    if r.Some? {
      var i :| 0 <= i < |vs| && vs[i] == Some(r.value - 1);
    }
  }

  /**
   * The next aircraft code: "AER001" when there is no aircraft or no code carries a number;
   * otherwise "AER" and the number one above the largest carried number, padded to three
   * digits. Its number exceeds every code's number and is one above some code's number.
   */
  function ProximoCodigoAeronave(codigos: seq<string>): (r: string)
    ensures |r| >= 6 && r[..3] == "AER"
    ensures ProximoNumero(NumerosDosCodigos(codigos)).None? ==> r == "AER001"
    ensures NumeroDoCodigo(r).Some? && AcimaDeTodos(NumerosDosCodigos(codigos), NumeroDoCodigo(r).value)
    ensures ProximoNumero(NumerosDosCodigos(codigos)).Some? ==>
              UmAcimaDeAlgum(NumerosDosCodigos(codigos), NumeroDoCodigo(r).value)
    ensures NumeroDoCodigo(r).value >= 1 && r[3..] == PadStart(Decimal(NumeroDoCodigo(r).value), 3, '0')
  {
    var vs := NumerosDosCodigos(codigos);
    var proximo := ProximoNumero(vs);
    var n := if proximo.None? then 1 else proximo.value;
    ProximoNumeroPositivo(vs);
    var p := PadStart(Decimal(n), 3, '0');
    NumeroDoCodigoAer(n);
    PrefixoAer(p);
    Aer001();
    "AER" + p
  }

  // ---------------------------------------------------------------- lookups over lists

  /** The codes of a list of aircraft, in list order. */
  function CodigosAeronaves(aeronaves: seq<Aeronave>): (cs: seq<string>)
    ensures |cs| == |aeronaves| && forall i :: 0 <= i < |aeronaves| ==> cs[i] == aeronaves[i].codigo
  {
    seq(|aeronaves|, i requires 0 <= i < |aeronaves| => aeronaves[i].codigo)
  }

  /** The first aircraft whose upper-cased code is `alvo`, or -1. */
  function PrimeiroComCodigo(aeronaves: seq<Aeronave>, alvo: string): (i: int)
    ensures -1 <= i < |aeronaves|
    ensures i == -1 <==> forall j :: 0 <= j < |aeronaves| ==> Maiusculas(aeronaves[j].codigo) != alvo
    ensures i >= 0 ==> Maiusculas(aeronaves[i].codigo) == alvo
                       && forall j :: 0 <= j < i ==> Maiusculas(aeronaves[j].codigo) != alvo
  {
    if aeronaves == [] then -1
    else if Maiusculas(aeronaves[0].codigo) == alvo then 0
    else
      var i := PrimeiroComCodigo(aeronaves[1..], alvo);
      assert forall j :: 0 < j < |aeronaves| ==> aeronaves[j] == aeronaves[1..][j - 1];
      if i == -1 then -1 else i + 1
  }

  /** The first aircraft whose upper-cased code is `alvo`, if any. */
  function ComCodigo(aeronaves: seq<Aeronave>, alvo: string): (r: Option<Aeronave>)
    ensures r.Some? ==> r.value in aeronaves && Maiusculas(r.value.codigo) == alvo
    ensures r.None? <==> forall j :: 0 <= j < |aeronaves| ==> Maiusculas(aeronaves[j].codigo) != alvo
  {
    var i := PrimeiroComCodigo(aeronaves, alvo);
    if i >= 0 then Some(aeronaves[i]) else None
  }

  /** The first employee that authenticates with the credentials, or -1. */
  function PrimeiroAutenticado(fs: seq<Funcionario>, usuario: string, senha: string): (i: int)
    reads set f | f in fs
    ensures -1 <= i < |fs|
    ensures i == -1 <==> forall j :: 0 <= j < |fs| ==> !fs[j].Autenticar(usuario, senha)
    ensures i >= 0 ==> fs[i].Autenticar(usuario, senha)
                       && forall j :: 0 <= j < i ==> !fs[j].Autenticar(usuario, senha)
  {
    if fs == [] then -1
    else if fs[0].Autenticar(usuario, senha) then 0
    else
      var i := PrimeiroAutenticado(fs[1..], usuario, senha);
      assert forall j :: 0 < j < |fs| ==> fs[j] == fs[1..][j - 1];
      if i == -1 then -1 else i + 1
  }

  /** A number typed by the user, counting from 1, as an index into a list of `tamanho` items. */
  function IndiceEscolhido(numero: string, tamanho: nat): (r: Option<nat>)
    ensures r.Some? ==> r.value < tamanho && ParseInt(numero) == Some(r.value + 1)
    ensures ParseInt(numero).Some? && 1 <= ParseInt(numero).value <= tamanho ==>
              r == Some(ParseInt(numero).value - 1)
  {
    match ParseInt(numero)
    case None => None
    case Some(n) => if n - 1 < 0 || n - 1 >= tamanho then None else Some(n - 1)
  }

  /** Typing the decimal form of k, for 1 <= k <= tamanho, chooses index k - 1; no other input reaches it. */
  lemma IndiceDoNumero(k: int, tamanho: nat, numero: string)
    ensures 1 <= k <= tamanho ==> IndiceEscolhido(NumeroParaTexto(k), tamanho) == Some(k - 1)
    ensures IndiceEscolhido(numero, tamanho) == Some(k - 1) ==> ParseInt(numero) == Some(k)
  {
    ParseIntNumeroParaTexto(k);
  }

  // ---------------------------------------------------------------- employees and tests

  predicate TemUsuario(fs: seq<Funcionario>, usuario: string)
    reads set f | f in fs
  {
    exists i :: 0 <= i < |fs| && fs[i].usuario == usuario
  }

  /** No two employees share a user name. */
  predicate UsuariosDistintos(fs: seq<Funcionario>)
    reads set f | f in fs
  {
    forall i, j :: 0 <= i < j < |fs| ==> fs[i].usuario != fs[j].usuario
  }

  /** The record of the default administrator. */
  const ADMIN_PADRAO := DadosFuncionario("1", "Administrador do Sistema", "(00) 0000-0000", "Sistema",
                                         "admin", "123456", ADMINISTRADOR, true)

  /** Appending an employee whose user name is new keeps the user names distinct. */
  lemma AnexarUsuarioNovo(fs: seq<Funcionario>, f: Funcionario)
    requires UsuariosDistintos(fs) && !TemUsuario(fs, f.usuario)
    ensures UsuariosDistintos(fs + [f]) && TemUsuario(fs + [f], f.usuario)
  {
    var gs := fs + [f];
    assert gs[|fs|] == f;
    forall i, j | 0 <= i < j < |gs| ensures gs[i].usuario != gs[j].usuario {
      if j == |fs| {
        assert gs[i] == fs[i];
      }
    }
  }

  /** The answer to a level prompt, upper-cased; anything else is refused. */
  function LerNivel(texto: string): (r: Option<NivelPermissao>)
    ensures r.Some? ==> Maiusculas(texto) == TextoNivel(r.value)
    ensures r.None? ==> Maiusculas(texto) != TextoNivel(ADMINISTRADOR) && Maiusculas(texto) != TextoNivel(ENGENHEIRO)
                        && Maiusculas(texto) != TextoNivel(OPERADOR)
  {
    var t := Maiusculas(texto);
    if t == "ADMINISTRADOR" then Some(ADMINISTRADOR)
    else if t == "ENGENHEIRO" then Some(ENGENHEIRO)
    else if t == "OPERADOR" then Some(OPERADOR)
    else None
  }

  /** The answer to a test-kind prompt, upper-cased; anything else is refused. */
  function LerTipoTeste(texto: string): (r: Option<TipoTeste>)
    ensures r.Some? ==> Maiusculas(texto) == TextoTipoTeste(r.value)
    ensures r.None? ==> Maiusculas(texto) != TextoTipoTeste(ELETRICO) && Maiusculas(texto) != TextoTipoTeste(HIDRAULICO)
                        && Maiusculas(texto) != TextoTipoTeste(AERODINAMICO)
  {
    var t := Maiusculas(texto);
    if t == "ELETRICO" then Some(ELETRICO)
    else if t == "HIDRAULICO" then Some(HIDRAULICO)
    else if t == "AERODINAMICO" then Some(AERODINAMICO)
    else None
  }

  /** The answer to a test-result prompt, upper-cased; anything else is refused. */
  function LerResultado(texto: string): (r: Option<ResultadoTeste>)
    ensures r.Some? ==> Maiusculas(texto) == TextoResultado(r.value)
    ensures r.None? ==> Maiusculas(texto) != TextoResultado(APROVADO) && Maiusculas(texto) != TextoResultado(REPROVADO)
  {
    var t := Maiusculas(texto);
    if t == "APROVADO" then Some(APROVADO)
    else if t == "REPROVADO" then Some(REPROVADO)
    else None
  }

  /** The enumerations' own names are read back as themselves. */
  lemma LerNomes(n: NivelPermissao, t: TipoTeste, r: ResultadoTeste)
    ensures LerNivel(TextoNivel(n)) == Some(n)
    ensures LerTipoTeste(TextoTipoTeste(t)) == Some(t)
    ensures LerResultado(TextoResultado(r)) == Some(r)
  {
    LerNomeNivel(n);
    LerNomeTipoTeste(t);
    LerNomeResultado(r);
  }

  lemma LerNomeNivel(n: NivelPermissao)
    ensures LerNivel(TextoNivel(n)) == Some(n)
  {
    MaiusculasDeMaiusculas(TextoNivel(n));
    match n
    case ADMINISTRADOR =>
    case ENGENHEIRO => assert TextoNivel(n) != "ADMINISTRADOR";
    case OPERADOR => assert TextoNivel(n) != "ADMINISTRADOR" && TextoNivel(n) != "ENGENHEIRO";
  }

  lemma LerNomeTipoTeste(t: TipoTeste)
    ensures LerTipoTeste(TextoTipoTeste(t)) == Some(t)
  {
    MaiusculasDeMaiusculas(TextoTipoTeste(t));
    match t
    case ELETRICO =>
    case HIDRAULICO => assert TextoTipoTeste(t) != "ELETRICO";
    case AERODINAMICO => assert TextoTipoTeste(t) != "ELETRICO" && TextoTipoTeste(t) != "HIDRAULICO";
  }

  lemma LerNomeResultado(r: ResultadoTeste)
    ensures LerResultado(TextoResultado(r)) == Some(r)
  {
    MaiusculasDeMaiusculas(TextoResultado(r));
  }

  /** At most one test of each kind. */
  predicate TiposDistintos(ts: seq<Teste>) {
    forall i, j :: 0 <= i < j < |ts| ==> ts[i].tipo != ts[j].tipo
  }

  predicate TemTipo(ts: seq<Teste>, tipo: TipoTeste) {
    exists i :: 0 <= i < |ts| && ts[i].tipo == tipo
  }

  // ---------------------------------------------------------------- stages

  /** The names of the five stages every new aircraft gets, in order. */
  const NOMES_ETAPAS: seq<string> := ["Montagem da Fuselagem", "Instalacao das Asas",
                                      "Montagem do Trem de Pouso", "Instalacao dos Motores", "Testes Finais"]

  /** A day in milliseconds. */
  const DIA: int := 24 * 60 * 60 * 1000

  /** The deadline of default stage `i`: (i + 1) weeks after `hoje`. */
  function Prazo(hoje: int, i: int): int {
    hoje + 7 * (i + 1) * DIA
  }

  /** Default stage `i`: named NOMES_ETAPAS[i], `ordem` i + 1, pending, due on time, nobody assigned. */
  ghost predicate EtapaPadrao(e: Etapa, i: int, hoje: int)
    requires 0 <= i < |NOMES_ETAPAS|
    reads e
  {
    e.nome == NOMES_ETAPAS[i] && e.ordem == i + 1 && e.status == PENDENTE
    && e.prazo == Prazo(hoje, i) && e.funcionariosAssociados == []
  }

  /** The five default stages, in order. */
  ghost predicate EtapasPadrao(es: seq<Etapa>, hoje: int)
    reads set e | e in es
  {
    |es| == |NOMES_ETAPAS| && forall i :: 0 <= i < |es| ==> EtapaPadrao(es[i], i, hoje)
  }

  /** No two stages share a name. */
  predicate NomesDistintos(es: seq<Etapa>)
    reads (set e | e in es)`nome
  {
    forall i, j :: 0 <= i < j < |es| ==> es[i].nome != es[j].nome
  }

  /** The five default names differ, already in length. */
  lemma NomesEtapasDistintos()
    ensures forall i, j :: 0 <= i < j < |NOMES_ETAPAS| ==> NOMES_ETAPAS[i] != NOMES_ETAPAS[j]
  {
    assert |NOMES_ETAPAS[0]| == 21 && |NOMES_ETAPAS[1]| == 19 && |NOMES_ETAPAS[2]| == 25;
    assert |NOMES_ETAPAS[3]| == 22 && |NOMES_ETAPAS[4]| == 13;
  }

  /** The default stages have distinct names, so `podeFinalizarEtapa` finds each one at its own place. */
  lemma PadraoNomesDistintos(es: seq<Etapa>, hoje: int)
    requires EtapasPadrao(es, hoje)
    ensures NomesDistintos(es)
    ensures forall i :: 0 <= i < |es| ==> PrimeiroPorNome(es, es[i].nome) == i
  {
    NomesEtapasDistintos();
    forall i, j | 0 <= i < j < |es| ensures es[i].nome != es[j].nome {
      assert EtapaPadrao(es[i], i, hoje) && EtapaPadrao(es[j], j, hoje);
    }
    forall i | 0 <= i < |es| ensures PrimeiroPorNome(es, es[i].nome) == i {
      NomeDistintoNaPosicao(es, i);
    }
  }

  /** With distinct names, the first stage carrying a stage's name is that stage. */
  lemma NomeDistintoNaPosicao(es: seq<Etapa>, k: int)
    requires NomesDistintos(es) && 0 <= k < |es|
    ensures PrimeiroPorNome(es, es[k].nome) == k
    ensures forall j :: 0 <= j < |es| && es[j] == es[k] ==> j == k
  {
  }

  /**
   * `podeFinalizarEtapa(e)` evaluated as if `e` had status `s`: the rule reads `e`'s status,
   * and also that of the stage before the first one named like `e`, which may be `e` itself.
   */
  function PodeFinalizarCom(es: seq<Etapa>, e: Etapa, s: StatusEtapa): bool
    reads e, set x | x in es
  {
    var i := PrimeiroPorNome(es, e.nome);
    if i == -1 then false
    else if i == 0 then s == ANDAMENTO
    else (if es[i - 1] == e then s else es[i - 1].status) == CONCLUIDA && s == ANDAMENTO
  }

  /** With the stage's own status, `PodeFinalizarCom` is the aircraft's rule. */
  lemma PodeFinalizarComEstadoAtual(a: Aeronave, e: Etapa)
    ensures PodeFinalizarCom(a.etapas, e, e.status) == a.PodeFinalizarEtapa(e)
  {
  }

  // ---------------------------------------------------------------- the session

  class Sistema {
    var funcionarios: seq<Funcionario>
    var aeronaves: seq<Aeronave>
    var usuarioLogado: Funcionario?

    /** Starts with the loaded employees and aircraft, nobody logged in, and a default administrator. */
    constructor (funcionariosCarregados: seq<Funcionario>, aeronavesCarregadas: seq<Aeronave>)
      ensures aeronaves == aeronavesCarregadas && usuarioLogado == null
      ensures TemUsuario(funcionarios, "admin")
      ensures TemUsuario(funcionariosCarregados, "admin") ==> funcionarios == funcionariosCarregados
      ensures !TemUsuario(funcionariosCarregados, "admin") ==>
                |funcionarios| == |funcionariosCarregados| + 1
                && funcionarios[..|funcionariosCarregados|] == funcionariosCarregados
                && fresh(funcionarios[|funcionariosCarregados|])
                && funcionarios[|funcionariosCarregados|].Dados() == ADMIN_PADRAO
    {
      funcionarios := funcionariosCarregados;
      aeronaves := aeronavesCarregadas;
      usuarioLogado := null;
      new;
      CriarUsuarioAdminPadrao();
    }

    /** Adds the default administrator exactly when no employee has the user name "admin". */
    method CriarUsuarioAdminPadrao()
      modifies this`funcionarios
      ensures TemUsuario(funcionarios, "admin")
      ensures old(TemUsuario(funcionarios, "admin")) ==> funcionarios == old(funcionarios)
      ensures !old(TemUsuario(funcionarios, "admin")) ==>
                |funcionarios| == |old(funcionarios)| + 1
                && funcionarios[..|old(funcionarios)|] == old(funcionarios)
                && fresh(funcionarios[|old(funcionarios)|])
                && funcionarios[|old(funcionarios)|].Dados() == ADMIN_PADRAO
      ensures old(UsuariosDistintos(funcionarios)) ==> UsuariosDistintos(funcionarios)
    {
      var adminJaExiste := TemUsuario(funcionarios, "admin");
      if !adminJaExiste {
        var admin := new Funcionario("1", "Administrador do Sistema", "(00) 0000-0000", "Sistema",
                                     "admin", "123456", ADMINISTRADOR);
        AnexarFuncionario(admin);
        assert funcionarios[|funcionarios| - 1] == admin;
      }
    }

    /** Appends an employee whose user name is not taken; user names stay distinct. */
    method AnexarFuncionario(f: Funcionario)
      requires !TemUsuario(funcionarios, f.usuario)
      modifies this`funcionarios
      ensures funcionarios == old(funcionarios) + [f] && TemUsuario(funcionarios, f.usuario)
      ensures old(UsuariosDistintos(funcionarios)) ==> UsuariosDistintos(funcionarios)
    {
      if UsuariosDistintos(funcionarios) {
        AnexarUsuarioNovo(funcionarios, f);
      }
      funcionarios := funcionarios + [f];
      assert funcionarios[|funcionarios| - 1] == f;
    }

    /** The logged-in user's rank is at least the required one; nobody logged in has none. */
    function VerificarPermissao(nivel: NivelPermissao): (ok: bool)
      reads this, usuarioLogado
      ensures ok <==> usuarioLogado != null && usuarioLogado.TemPermissao(nivel)
      ensures ok <==> usuarioLogado != null
                      && (usuarioLogado.nivelPermissao == ADMINISTRADOR || nivel == OPERADOR
                          || usuarioLogado.nivelPermissao == nivel)
    {
      if usuarioLogado == null then false
      else Hierarquia(usuarioLogado.nivelPermissao) >= Hierarquia(nivel)
    }

    /** The first employee whose credentials match becomes the logged-in user; `ativo` is not consulted. */
    method Login(usuario: string, senha: string) returns (ok: bool)
      modifies this`usuarioLogado
      ensures ok <==> exists i :: 0 <= i < |funcionarios| && funcionarios[i].Autenticar(usuario, senha)
      ensures ok ==> usuarioLogado == funcionarios[PrimeiroAutenticado(funcionarios, usuario, senha)]
      ensures !ok ==> usuarioLogado == old(usuarioLogado)
    {
      var i := PrimeiroAutenticado(funcionarios, usuario, senha);
      if i >= 0 {
        usuarioLogado := funcionarios[i];
        return true;
      }
      return false;
    }

    /** The first employee with the code, or null when none has it. */
    function ObterFuncionarioPorCodigo(codigo: string): (r: Funcionario?)
      reads this
      ensures r == null <==> forall i :: 0 <= i < |funcionarios| ==> funcionarios[i].codigo != codigo
      ensures r != null ==> exists i :: 0 <= i < |funcionarios| && funcionarios[i] == r && r.codigo == codigo
                                         && forall j :: 0 <= j < i ==> funcionarios[j].codigo != codigo
    {
      match Encontrar(funcionarios, codigo)
      case None => null
      case Some(f) => f
    }

    /**
     * The aircraft an answer to the selection prompt picks: nothing when the list is empty or
     * the answer is blank; position n when the answer reads as a number n from 1 to the
     * length; otherwise the first aircraft whose code equals the answer, both upper-cased and
     * the answer trimmed.
     */
    function SelecionarAeronave(opcao: string): (r: Option<Aeronave>)
      reads this
      ensures r.Some? ==> r.value in aeronaves
      ensures |aeronaves| == 0 || Trim(opcao) == [] ==> r.None?
    {
      if |aeronaves| == 0 then None
      else if Trim(opcao) == [] then None
      else
        match IndiceEscolhido(opcao, |aeronaves|)
        case Some(k) => Some(aeronaves[k])
        case None => ComCodigo(aeronaves, Trim(Maiusculas(opcao)))
    }

    /** The selection as a frame: the chosen aircraft, if any. */
    function AeronaveAlvo(opcao: string): (r: set<Aeronave>)
      reads this
      ensures r == if SelecionarAeronave(opcao).Some? then {SelecionarAeronave(opcao).value} else {}
    {
      match SelecionarAeronave(opcao)
      case None => {}
      case Some(a) => {a}
    }

    /** The stage an aircraft answer and a stage number pick, if both are valid. */
    function EtapaEscolhida(opcao: string, numero: string): (r: Option<Etapa>)
      reads this, set a | a in aeronaves
      ensures r.Some? ==> SelecionarAeronave(opcao).Some?
                          && IndiceEscolhido(numero, |SelecionarAeronave(opcao).value.etapas|).Some?
                          && r.value == SelecionarAeronave(opcao).value.etapas[
                               IndiceEscolhido(numero, |SelecionarAeronave(opcao).value.etapas|).value]
      ensures r.None? ==> SelecionarAeronave(opcao).None?
                          || IndiceEscolhido(numero, |SelecionarAeronave(opcao).value.etapas|).None?
    {
      match SelecionarAeronave(opcao)
      case None => None
      case Some(a) =>
        match IndiceEscolhido(numero, |a.etapas|)
        case None => None
        case Some(i) => Some(a.etapas[i])
    }

    /** The picked stage as a frame. */
    function EtapaAlvo(opcao: string, numero: string): (r: set<Etapa>)
      reads this, set a | a in aeronaves
      ensures r == if EtapaEscolhida(opcao, numero).Some? then {EtapaEscolhida(opcao, numero).value} else {}
    {
      match EtapaEscolhida(opcao, numero)
      case None => {}
      case Some(e) => {e}
    }

    /**
     * Needs ENGENHEIRO. Appends an aircraft with the next code, the answers given, the clock's
     * ISO text as manufacturer, and the five default stages, sorted and pending.
     */
    method CadastrarAeronave(modelo: string, tipoTexto: string, capacidade: int, alcance: int, cliente: string,
                             agoraIso: string, hoje: int, anoAtual: int, numeroSerieGerado: string)
      returns (desfecho: Desfecho)
      modifies this`aeronaves
      ensures desfecho == if old(VerificarPermissao(ENGENHEIRO)) then Realizado else PermissaoInsuficiente
      ensures desfecho != Realizado ==> aeronaves == old(aeronaves)
      ensures desfecho == Realizado ==>
                |aeronaves| == |old(aeronaves)| + 1 && aeronaves[..|old(aeronaves)|] == old(aeronaves)
      ensures desfecho == Realizado ==>
                var a := aeronaves[|old(aeronaves)|];
                fresh(a) && a.Valid()
                && a.codigo == ProximoCodigoAeronave(CodigosAeronaves(old(aeronaves)))
                && a.modelo == modelo && a.capacidade == capacidade && a.alcance == alcance
                && a.tipo == (if Maiusculas(tipoTexto) == "COMERCIAL" then COMERCIAL else MILITAR)
                && a.cliente == cliente && a.fabricante == agoraIso && a.anoFabricacao == anoAtual
                && a.numeroSerie == numeroSerieGerado && a.pecas == [] && a.testes == []
                && EtapasPadrao(a.etapas, hoje) && NomesDistintos(a.etapas)
                && forall i :: 0 <= i < |a.etapas| ==> fresh(a.etapas[i])
    {
      if !VerificarPermissao(ENGENHEIRO) {
        return PermissaoInsuficiente;
      }
      var codigo := ProximoCodigoAeronave(CodigosAeronaves(aeronaves));
      var tipo := if Maiusculas(tipoTexto) == "COMERCIAL" then COMERCIAL else MILITAR;
      var aeronave := NovaAeronave(codigo, modelo, tipo, capacidade, alcance, cliente, agoraIso, hoje, anoAtual,
                                   numeroSerieGerado);
      aeronaves := aeronaves + [aeronave];
      assert aeronaves[|aeronaves| - 1] == aeronave;
      return Realizado;
    }

    /** Needs ENGENHEIRO. Starts the picked stage: only a pending stage moves, to ANDAMENTO. */
    method IniciarEtapa(opcao: string, numero: string) returns (desfecho: Desfecho)
      modifies EtapaAlvo(opcao, numero)`status
      ensures desfecho != Realizado ==> unchanged(old(EtapaAlvo(opcao, numero)))
      ensures !VerificarPermissao(ENGENHEIRO) ==> desfecho == PermissaoInsuficiente
      ensures VerificarPermissao(ENGENHEIRO) && SelecionarAeronave(opcao).None? ==> desfecho == SelecaoCancelada
      ensures (VerificarPermissao(ENGENHEIRO) && SelecionarAeronave(opcao).Some?
               && old(EtapaEscolhida(opcao, numero)).None?) ==> desfecho == EtapaInvalida
      ensures VerificarPermissao(ENGENHEIRO) && old(EtapaEscolhida(opcao, numero)).Some? ==>
                var e := old(EtapaEscolhida(opcao, numero)).value;
                e.status == Iniciado(old(e.status))
                && desfecho == (if old(e.status) == PENDENTE then Realizado else NaoRealizado)
      ensures forall i :: 0 <= i < |aeronaves| ==>
                old(ConcluidasEmPrefixo(Estados(aeronaves[i].etapas))) ==> ConcluidasEmPrefixo(Estados(aeronaves[i].etapas))
    {
      if !VerificarPermissao(ENGENHEIRO) {
        return PermissaoInsuficiente;
      }
      var selecionada := SelecionarAeronave(opcao);
      if selecionada.None? {
        return SelecaoCancelada;
      }
      var etapas := selecionada.value.GetEtapas();
      var indice := IndiceEscolhido(numero, |etapas|);
      if indice.None? {
        return EtapaInvalida;
      }
      var etapa := etapas[indice.value];
      ghost var antes := etapa.status;
      var sucesso := etapa.Iniciar();
      desfecho := if sucesso then Realizado else NaoRealizado;
      forall i | 0 <= i < |aeronaves| && old(ConcluidasEmPrefixo(Estados(aeronaves[i].etapas)))
        ensures ConcluidasEmPrefixo(Estados(aeronaves[i].etapas))
      {
        MesmasConcluidas(old(Estados(aeronaves[i].etapas)), Estados(aeronaves[i].etapas));
      }
    }

    /**
     * Needs ENGENHEIRO. A pending stage is first started, and stays started; the stage is then
     * completed exactly when the aircraft's rule allows it in that state. On an aircraft whose
     * stages have distinct names, the completed stages stay a prefix of the list.
     */
    method FinalizarEtapa(opcao: string, numero: string) returns (desfecho: Desfecho)
      modifies EtapaAlvo(opcao, numero)`status
      ensures desfecho in {PermissaoInsuficiente, SelecaoCancelada, EtapaInvalida} ==> unchanged(old(EtapaAlvo(opcao, numero)))
      ensures !VerificarPermissao(ENGENHEIRO) ==> desfecho == PermissaoInsuficiente
      ensures VerificarPermissao(ENGENHEIRO) && SelecionarAeronave(opcao).None? ==> desfecho == SelecaoCancelada
      ensures (VerificarPermissao(ENGENHEIRO) && SelecionarAeronave(opcao).Some?
               && old(EtapaEscolhida(opcao, numero)).None?) ==> desfecho == EtapaInvalida
      ensures VerificarPermissao(ENGENHEIRO) && old(EtapaEscolhida(opcao, numero)).Some? ==>
                var a := SelecionarAeronave(opcao).value;
                var e := old(EtapaEscolhida(opcao, numero)).value;
                var pode := old(PodeFinalizarCom(a.etapas, e, Iniciado(e.status)));
                e.status == (if pode then CONCLUIDA else Iniciado(old(e.status)))
                && desfecho == (if pode then Realizado else NaoRealizado)
      ensures VerificarPermissao(ENGENHEIRO) && SelecionarAeronave(opcao).Some? ==>
                var a := SelecionarAeronave(opcao).value;
                NomesDistintos(a.etapas) && old(ConcluidasEmPrefixo(Estados(a.etapas))) ==>
                  ConcluidasEmPrefixo(Estados(a.etapas))
    {
      if !VerificarPermissao(ENGENHEIRO) {
        return PermissaoInsuficiente;
      }
      var selecionada := SelecionarAeronave(opcao);
      if selecionada.None? {
        return SelecaoCancelada;
      }
      var aeronave := selecionada.value;
      var etapas := aeronave.GetEtapas();
      var indice := IndiceEscolhido(numero, |etapas|);
      if indice.None? {
        return EtapaInvalida;
      }
      var finalizada := FinalizarNaPosicao(aeronave, indice.value, etapas[indice.value]);
      desfecho := if finalizada then Realizado else NaoRealizado;
    }

    /**
     * Needs ENGENHEIRO. Assigns the employee at the typed list number to the picked stage,
     * unless one with the same code is already assigned.
     */
    method AssociarFuncionarioEtapa(opcao: string, numeroEtapa: string, numeroFuncionario: string)
      returns (desfecho: Desfecho)
      modifies EtapaAlvo(opcao, numeroEtapa)`funcionariosAssociados
      ensures desfecho != Realizado ==> unchanged(old(EtapaAlvo(opcao, numeroEtapa)))
      ensures !VerificarPermissao(ENGENHEIRO) ==> desfecho == PermissaoInsuficiente
      ensures VerificarPermissao(ENGENHEIRO) && SelecionarAeronave(opcao).None? ==> desfecho == SelecaoCancelada
      ensures (VerificarPermissao(ENGENHEIRO) && SelecionarAeronave(opcao).Some?
               && old(EtapaEscolhida(opcao, numeroEtapa)).None?) ==> desfecho == EtapaInvalida
      ensures (VerificarPermissao(ENGENHEIRO) && old(EtapaEscolhida(opcao, numeroEtapa)).Some?
               && IndiceEscolhido(numeroFuncionario, |funcionarios|).None?) ==> desfecho == FuncionarioInvalido
      ensures (VerificarPermissao(ENGENHEIRO) && old(EtapaEscolhida(opcao, numeroEtapa)).Some?
               && IndiceEscolhido(numeroFuncionario, |funcionarios|).Some?) ==>
                var e := old(EtapaEscolhida(opcao, numeroEtapa)).value;
                var f := funcionarios[IndiceEscolhido(numeroFuncionario, |funcionarios|).value];
                var novo := !TemCodigo(old(e.funcionariosAssociados), f.codigo);
                desfecho == (if novo then Realizado else NaoRealizado)
                && e.funcionariosAssociados == (if novo then old(e.funcionariosAssociados) + [f]
                                                else old(e.funcionariosAssociados))
                && (CodigosDistintos(old(e.funcionariosAssociados)) ==> CodigosDistintos(e.funcionariosAssociados))
    {
      if !VerificarPermissao(ENGENHEIRO) {
        return PermissaoInsuficiente;
      }
      var selecionada := SelecionarAeronave(opcao);
      if selecionada.None? {
        return SelecaoCancelada;
      }
      var etapas := selecionada.value.GetEtapas();
      var indiceEtapa := IndiceEscolhido(numeroEtapa, |etapas|);
      if indiceEtapa.None? {
        return EtapaInvalida;
      }
      var etapa := etapas[indiceEtapa.value];
      var indiceFuncionario := IndiceEscolhido(numeroFuncionario, |funcionarios|);
      if indiceFuncionario.None? {
        return FuncionarioInvalido;
      }
      var funcionario := funcionarios[indiceFuncionario.value];
      var sucesso := etapa.AssociarFuncionario(funcionario);
      desfecho := if sucesso then Realizado else NaoRealizado;
    }

    /**
     * Needs ENGENHEIRO. Records a test on the picked aircraft unless it already has one of
     * that kind; the kind is checked before the result is read. Each aircraft thus keeps at
     * most one test per kind.
     */
    method AdicionarTeste(opcao: string, tipoTexto: string, resultadoTexto: string, agora: int)
      returns (desfecho: Desfecho)
      modifies AeronaveAlvo(opcao)`testes
      ensures desfecho != Realizado ==> unchanged(old(AeronaveAlvo(opcao)))
      ensures !VerificarPermissao(ENGENHEIRO) ==> desfecho == PermissaoInsuficiente
      ensures VerificarPermissao(ENGENHEIRO) && SelecionarAeronave(opcao).None? ==> desfecho == SelecaoCancelada
      ensures VerificarPermissao(ENGENHEIRO) && SelecionarAeronave(opcao).Some? ==>
                var a := SelecionarAeronave(opcao).value;
                var tipo := LerTipoTeste(tipoTexto);
                var resultado := LerResultado(resultadoTexto);
                desfecho == (if tipo.None? then TipoInvalido
                             else if TemTipo(old(a.testes), tipo.value) then TesteDuplicado
                             else if resultado.None? then ResultadoInvalido
                             else Realizado)
                && a.testes == (if desfecho == Realizado
                                then old(a.testes) + [Teste(tipo.value, resultado.value, agora)]
                                else old(a.testes))
                && (TiposDistintos(old(a.testes)) ==> TiposDistintos(a.testes))
    {
      if !VerificarPermissao(ENGENHEIRO) {
        return PermissaoInsuficiente;
      }
      var selecionada := SelecionarAeronave(opcao);
      if selecionada.None? {
        return SelecaoCancelada;
      }
      desfecho := RegistrarTeste(selecionada.value, tipoTexto, resultadoTexto, agora);
    }

    /**
     * The part of `AdicionarTeste` after the aircraft is picked: the kind is read and checked
     * for a duplicate before the result is read.
     */
    static method RegistrarTeste(a: Aeronave, tipoTexto: string, resultadoTexto: string, agora: int)
      returns (desfecho: Desfecho)
      modifies a`testes
      ensures var tipo := LerTipoTeste(tipoTexto);
              var resultado := LerResultado(resultadoTexto);
              desfecho == (if tipo.None? then TipoInvalido
                           else if TemTipo(old(a.testes), tipo.value) then TesteDuplicado
                           else if resultado.None? then ResultadoInvalido
                           else Realizado)
              && a.testes == (if desfecho == Realizado
                              then old(a.testes) + [Teste(tipo.value, resultado.value, agora)]
                              else old(a.testes))
              && (TiposDistintos(old(a.testes)) ==> TiposDistintos(a.testes))
    {
      var tipo := LerTipoTeste(tipoTexto);
      if tipo.None? {
        return TipoInvalido;
      }
      var testes := a.GetTestes();
      if TemTipo(testes, tipo.value) {
        return TesteDuplicado;
      }
      var resultado := LerResultado(resultadoTexto);
      if resultado.None? {
        return ResultadoInvalido;
      }
      var teste := Teste(tipo.value, resultado.value, agora);
      a.AdicionarTeste(teste);
      assert a.testes[|testes|] == teste;
      return Realizado;
    }

    /**
     * Needs ADMINISTRADOR. Registers an active employee with the next code, unless the user
     * name is taken or the level is not one of the three; user names stay distinct.
     */
    method CadastrarFuncionario(nome: string, telefone: string, endereco: string, usuario: string,
                                senha: string, nivelTexto: string) returns (desfecho: Desfecho)
      modifies this`funcionarios
      ensures desfecho == (if !old(VerificarPermissao(ADMINISTRADOR)) then PermissaoInsuficiente
                           else if old(TemUsuario(funcionarios, usuario)) then UsuarioJaExiste
                           else if LerNivel(nivelTexto).None? then NivelInvalido
                           else Realizado)
      ensures desfecho != Realizado ==> funcionarios == old(funcionarios)
      ensures desfecho == Realizado ==>
                |funcionarios| == |old(funcionarios)| + 1 && funcionarios[..|old(funcionarios)|] == old(funcionarios)
                && fresh(funcionarios[|old(funcionarios)|])
                && funcionarios[|old(funcionarios)|].Dados()
                   == DadosFuncionario(ProximoCodigoFuncionario(ModeloEtapa.Codigos(old(funcionarios))), nome, telefone,
                                       endereco, usuario, senha, LerNivel(nivelTexto).value, true)
      ensures old(UsuariosDistintos(funcionarios)) ==> UsuariosDistintos(funcionarios)
    {
      if !VerificarPermissao(ADMINISTRADOR) {
        return PermissaoInsuficiente;
      }
      var codigo := ProximoCodigoFuncionario(ModeloEtapa.Codigos(funcionarios));
      if TemUsuario(funcionarios, usuario) {
        return UsuarioJaExiste;
      }
      var nivel := LerNivel(nivelTexto);
      if nivel.None? {
        return NivelInvalido;
      }
      var funcionario := new Funcionario(codigo, nome, telefone, endereco, usuario, senha, nivel.value);
      AnexarFuncionario(funcionario);
      assert funcionarios[|funcionarios| - 1] == funcionario;
      return Realizado;
    }
  }

  /**
   * The aircraft `cadastrarAeronave` builds: the given data, the timestamp in the
   * manufacturer's place, the current year, the generated serial number, and the default stages.
   */
  method NovaAeronave(codigo: string, modelo: string, tipo: TipoAeronave, capacidade: int, alcance: int,
                      cliente: string, agoraIso: string, hoje: int, anoAtual: int, numeroSerieGerado: string)
    returns (a: Aeronave)
    ensures fresh(a) && a.Valid()
    ensures a.codigo == codigo && a.modelo == modelo && a.tipo == tipo
    ensures a.capacidade == capacidade && a.alcance == alcance
    ensures a.cliente == cliente && a.fabricante == agoraIso && a.anoFabricacao == anoAtual
    ensures a.numeroSerie == numeroSerieGerado && a.pecas == [] && a.testes == []
    ensures EtapasPadrao(a.etapas, hoje) && NomesDistintos(a.etapas)
    ensures forall i :: 0 <= i < |a.etapas| ==> fresh(a.etapas[i])
  {
    a := new Aeronave(codigo, modelo, tipo, capacidade, alcance, Some(cliente), Some(agoraIso),
                      None, None, None, None, anoAtual, numeroSerieGerado);
    AdicionarEtapasPadrao(a, hoje);
    PadraoNomesDistintos(a.etapas, hoje);
  }

  /** Adds the five default stages, in order, to an aircraft that has none. */
  method AdicionarEtapasPadrao(aeronave: Aeronave, hoje: int)
    requires aeronave.Valid() && aeronave.etapas == []
    modifies aeronave`etapas
    ensures aeronave.Valid() && EtapasPadrao(aeronave.etapas, hoje)
    ensures forall i :: 0 <= i < |aeronave.etapas| ==> fresh(aeronave.etapas[i])
  {
    var k := 0;
    while k < |NOMES_ETAPAS|
      invariant 0 <= k <= |NOMES_ETAPAS|
      invariant aeronave.Valid() && |aeronave.etapas| == k
      invariant forall i :: 0 <= i < k ==> EtapaPadrao(aeronave.etapas[i], i, hoje)
      invariant forall i :: 0 <= i < k ==> fresh(aeronave.etapas[i])
    {
      ghost var antes := aeronave.etapas;
      var etapa := AdicionarEtapaPadrao(aeronave, k, hoje);
      assert forall i :: 0 <= i < k ==> aeronave.etapas[i] == antes[i];
      k := k + 1;
    }
  }

  /** Appends default stage `k` to an aircraft holding the `k` before it. */
  method AdicionarEtapaPadrao(aeronave: Aeronave, k: nat, hoje: int) returns (etapa: Etapa)
    requires k < |NOMES_ETAPAS| && aeronave.Valid() && |aeronave.etapas| == k
    requires forall i :: 0 <= i < k ==> aeronave.etapas[i].ordem == i + 1
    modifies aeronave`etapas
    ensures fresh(etapa) && EtapaPadrao(etapa, k, hoje)
    ensures aeronave.Valid() && aeronave.etapas == old(aeronave.etapas) + [etapa]
  {
    etapa := new Etapa(NOMES_ETAPAS[k], Prazo(hoje, k), Some(PENDENTE), k + 1);
    InserirNoFim(aeronave.etapas, etapa);
    aeronave.AdicionarEtapa(etapa);
  }

  /**
   * `finalizarEtapa` once the aircraft and the stage at position `k` are chosen: a pending
   * stage is started; the stage is then completed when the aircraft's rule allows it. With
   * distinct stage names, the completed stages stay a prefix of the list.
   */
  method FinalizarNaPosicao(aeronave: Aeronave, k: nat, etapa: Etapa) returns (finalizada: bool)
    requires k < |aeronave.etapas| && etapa == aeronave.etapas[k]
    modifies etapa`status
    ensures var pode := old(PodeFinalizarCom(aeronave.etapas, etapa, Iniciado(etapa.status)));
            finalizada == pode && etapa.status == (if pode then CONCLUIDA else Iniciado(old(etapa.status)))
    ensures NomesDistintos(aeronave.etapas) && old(ConcluidasEmPrefixo(Estados(aeronave.etapas))) ==>
              ConcluidasEmPrefixo(Estados(aeronave.etapas))
  {
    ghost var es := aeronave.etapas;
    ghost var s0 := Estados(es);
    ghost var distintos := NomesDistintos(es);
    if distintos {
      NomeDistintoNaPosicao(es, k);
      PodeFinalizarNaPosicao(es, k, Iniciado(etapa.status));
    }
    finalizada := IniciarEFinalizar(aeronave, etapa);
    if distintos && ConcluidasEmPrefixo(s0) {
      assert forall j :: 0 <= j < |es| && j != k ==> es[j] != etapa;
      EstadosAposMudar(es, k, s0);
      FinalizarPreservaPrefixo(s0, k, etapa.status);
    }
  }

  /** Starts `etapa` if it is pending, then completes it if the aircraft's rule allows it. */
  method IniciarEFinalizar(aeronave: Aeronave, etapa: Etapa) returns (finalizada: bool)
    modifies etapa`status
    ensures var pode := old(PodeFinalizarCom(aeronave.etapas, etapa, Iniciado(etapa.status)));
            finalizada == pode && etapa.status == (if pode then CONCLUIDA else Iniciado(old(etapa.status)))
  {
    ghost var pode := PodeFinalizarCom(aeronave.etapas, etapa, Iniciado(etapa.status));
    if etapa.status == PENDENTE {
      var iniciada := etapa.Iniciar();
    }
    PodeFinalizarComEstadoAtual(aeronave, etapa);
    if aeronave.PodeFinalizarEtapa(etapa) {
      finalizada := etapa.Finalizar();
    } else {
      finalizada := false;
    }
  }

  /** With distinct names, the rule for the stage at `k` reads its own status and its predecessor's. */
  lemma PodeFinalizarNaPosicao(es: seq<Etapa>, k: int, s: StatusEtapa)
    requires NomesDistintos(es) && 0 <= k < |es|
    ensures PodeFinalizarCom(es, es[k], s) <==> s == ANDAMENTO && (k == 0 || es[k - 1].status == CONCLUIDA)
  {
    NomeDistintoNaPosicao(es, k);
  }

  /** A status list that differs from the stages' statuses at most at `k` is updated there alone. */
  lemma EstadosAposMudar(es: seq<Etapa>, k: int, s0: seq<StatusEtapa>)
    requires 0 <= k < |es| == |s0|
    requires forall j :: 0 <= j < |es| && j != k ==> es[j].status == s0[j]
    ensures Estados(es) == s0[k := es[k].status]
  {
  }

  /** Two status lists that agree on which positions are completed agree on the prefix rule. */
  lemma MesmasConcluidas(ss: seq<StatusEtapa>, ts: seq<StatusEtapa>)
    requires |ss| == |ts| && forall i :: 0 <= i < |ss| ==> (ss[i] == CONCLUIDA <==> ts[i] == CONCLUIDA)
    ensures ConcluidasEmPrefixo(ss) ==> ConcluidasEmPrefixo(ts)
  {
  }

  /**
   * Starting the stage at `k` and then, when the rule allows it, completing it keeps the
   * completed stages a prefix.
   */
  lemma FinalizarPreservaPrefixo(s0: seq<StatusEtapa>, k: int, novo: StatusEtapa)
    requires 0 <= k < |s0| && ConcluidasEmPrefixo(s0)
    requires novo == Iniciado(s0[k])
             || (novo == CONCLUIDA && Iniciado(s0[k]) == ANDAMENTO && (k == 0 || s0[k - 1] == CONCLUIDA))
    ensures ConcluidasEmPrefixo(s0[k := novo])
  {
    IniciarMantemPrefixo(s0, k);
    var s1 := s0[k := Iniciado(s0[k])];
    if novo != Iniciado(s0[k]) {
      FinalizarMantemPrefixo(s1, k);
      assert s1[k := CONCLUIDA] == s0[k := novo];
    }
  }

  // ---------------------------------------------------------------- selection properties

  /** Typing the list number k, 1 <= k <= length, selects the k-th aircraft. */
  lemma SelecionarPorNumero(s: Sistema, k: int)
    requires 1 <= k <= |s.aeronaves|
    ensures s.SelecionarAeronave(NumeroParaTexto(k)) == Some(s.aeronaves[k - 1])
  {
    ParseIntNumeroParaTexto(k);
    SelecionarPorValor(s, NumeroParaTexto(k));
  }

  /**
   * Any answer that `parseInt` reads as a number n from 1 to the length, whatever surrounds
   * the number (leading whitespace, a sign, trailing text), selects the n-th aircraft.
   */
  lemma SelecionarPorValor(s: Sistema, opcao: string)
    requires ParseInt(opcao).Some? && 1 <= ParseInt(opcao).value <= |s.aeronaves|
    ensures s.SelecionarAeronave(opcao) == Some(s.aeronaves[ParseInt(opcao).value - 1])
  {
    var k := ParseInt(opcao).value - 1;
    IndiceDoValor(opcao, |s.aeronaves|, k);
    SelecionarPorIndice(s, opcao, k);
  }

  /** An answer read as a list number in range is non-blank and picks the index one below it. */
  lemma IndiceDoValor(opcao: string, tamanho: nat, k: int)
    requires ParseInt(opcao) == Some(k + 1) && 0 <= k < tamanho
    ensures Trim(opcao) != [] && IndiceEscolhido(opcao, tamanho) == Some(k)
  {
    ParseIntNaoBranco(opcao);
  }

  /** A non-blank answer that picks a list index selects the aircraft at that index. */
  lemma SelecionarPorIndice(s: Sistema, opcao: string, k: int)
    requires Trim(opcao) != [] && IndiceEscolhido(opcao, |s.aeronaves|) == Some(k)
    ensures 0 <= k < |s.aeronaves| && s.SelecionarAeronave(opcao) == Some(s.aeronaves[k])
  {
  }

  /**
   * Typing an aircraft's code, when it does not read as a list number, selects the first
   * aircraft whose code equals it up to case (by `PrimeiroComCodigoAte`, that aircraft or
   * one before it with the same code).
   */
  lemma SelecionarPorCodigo(s: Sistema, i: int)
    requires 0 <= i < |s.aeronaves|
    requires var c := s.aeronaves[i].codigo;
             c != [] && !EhEspaco(c[0]) && !EhEspaco(c[|c| - 1])
             && (ParseInt(c).None? || ParseInt(c).value < 1 || ParseInt(c).value > |s.aeronaves|)
    ensures var c := s.aeronaves[i].codigo;
            s.SelecionarAeronave(c) == Some(s.aeronaves[PrimeiroComCodigo(s.aeronaves, Maiusculas(c))])
  {
    var c := s.aeronaves[i].codigo;
    CodigoSemEspacos(c);
    SelecionarPorTexto(s, c);
  }

  /** A code with no whitespace at either end is its own trimmed form, upper-cased or not. */
  lemma CodigoSemEspacos(c: string)
    requires c != [] && !EhEspaco(c[0]) && !EhEspaco(c[|c| - 1])
    ensures Trim(c) != [] && Trim(Maiusculas(c)) == Maiusculas(c)
  {
    MaiusculasPontas(c);
    TrimSemEspacosNasPontas(c);
  }

  /** Looking up the upper-cased code of the aircraft at `i` finds it or an earlier one with the same code. */
  lemma PrimeiroComCodigoAte(aeronaves: seq<Aeronave>, i: int)
    requires 0 <= i < |aeronaves|
    ensures var j := PrimeiroComCodigo(aeronaves, Maiusculas(aeronaves[i].codigo));
            0 <= j <= i && Maiusculas(aeronaves[j].codigo) == Maiusculas(aeronaves[i].codigo)
  {
  }

  /** An answer that is not blank and not a list number is looked up as a code. */
  lemma SelecionarPorTexto(s: Sistema, opcao: string)
    requires |s.aeronaves| > 0 && Trim(opcao) != []
    requires ParseInt(opcao).None? || ParseInt(opcao).value < 1 || ParseInt(opcao).value > |s.aeronaves|
    ensures var j := PrimeiroComCodigo(s.aeronaves, Trim(Maiusculas(opcao)));
            s.SelecionarAeronave(opcao) == if j >= 0 then Some(s.aeronaves[j]) else None
  {
  }
}
