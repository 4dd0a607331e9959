/**
 * The enumerations of the system (src/enums/index.ts; sistema-aerocode.ts declares the same
 * seven enumerations with the same members), the role hierarchy and the stage transitions.
 */
module Enums {

  datatype TipoAeronave = COMERCIAL | MILITAR
  datatype TipoPeca = NACIONAL | IMPORTADA
  datatype StatusPeca = EM_PRODUCAO | EM_TRANSPORTE | PRONTA
  datatype StatusEtapa = PENDENTE | ANDAMENTO | CONCLUIDA
  datatype NivelPermissao = ADMINISTRADOR | ENGENHEIRO | OPERADOR
  datatype TipoTeste = ELETRICO | HIDRAULICO | AERODINAMICO
  datatype ResultadoTeste = APROVADO | REPROVADO

  // ---------------------------------------------------------------- roles

  /** The rank table `hierarquia`: OPERADOR 1, ENGENHEIRO 2, ADMINISTRADOR 3. */
  function Hierarquia(n: NivelPermissao): (r: nat)
    ensures 1 <= r <= 3
    ensures r == 3 <==> n == ADMINISTRADOR
    ensures r == 1 <==> n == OPERADOR
  {
    match n
    case OPERADOR => 1
    case ENGENHEIRO => 2
    case ADMINISTRADOR => 3
  }

  /**
   * `hierarquia[atual] >= hierarquia[requerido]`. The contract gives an independent
   * description: an administrator satisfies every level, every level satisfies OPERADOR,
   * and otherwise only the level itself is enough.
   */
  function Satisfaz(atual: NivelPermissao, requerido: NivelPermissao): (ok: bool)
    ensures ok <==> atual == ADMINISTRADOR || requerido == OPERADOR || atual == requerido
  {
    Hierarquia(atual) >= Hierarquia(requerido)
  }

  /** Role monotonicity: a rank at least as high satisfies whatever a lower one satisfies. */
  lemma SatisfazMonotono(r: NivelPermissao, r': NivelPermissao, requerido: NivelPermissao)
    requires Satisfaz(r, requerido)
    requires Hierarquia(r') >= Hierarquia(r)
    ensures Satisfaz(r', requerido)
  {
  }

  /** The hierarchy is a total preorder: reflexive, transitive and total. */
  lemma SatisfazOrdemTotal(a: NivelPermissao, b: NivelPermissao, c: NivelPermissao)
    ensures Satisfaz(a, a)
    ensures Satisfaz(a, b) && Satisfaz(b, c) ==> Satisfaz(a, c)
    ensures Satisfaz(a, b) || Satisfaz(b, a)
  {
  }

  // ---------------------------------------------------------------- stage states

  /** Position in PENDENTE < ANDAMENTO < CONCLUIDA. */
  function Posicao(s: StatusEtapa): (p: nat)
    ensures p <= 2
    ensures p == 0 <==> s == PENDENTE
    ensures p == 2 <==> s == CONCLUIDA
  {
    match s
    case PENDENTE => 0
    case ANDAMENTO => 1
    case CONCLUIDA => 2
  }

  /** Effect of `iniciar` on the status: only PENDENTE moves, and only one step. */
  function Iniciado(s: StatusEtapa): (r: StatusEtapa)
    ensures r != s <==> s == PENDENTE
    ensures r != s ==> Posicao(r) == Posicao(s) + 1
  {
    if s == PENDENTE then ANDAMENTO else s
  }

  /** Effect of `finalizar` on the status: only ANDAMENTO moves, and only one step. */
  function Finalizado(s: StatusEtapa): (r: StatusEtapa)
    ensures r != s <==> s == ANDAMENTO
    ensures r != s ==> Posicao(r) == Posicao(s) + 1
  {
    if s == ANDAMENTO then CONCLUIDA else s
  }

  /** A call of `iniciar` or `finalizar` on one stage. */
  datatype Transicao = Iniciar | Finalizar

  function Aplicar(s: StatusEtapa, t: Transicao): StatusEtapa {
    match t
    case Iniciar => Iniciado(s)
    case Finalizar => Finalizado(s)
  }

  /** The status after a whole sequence of calls, applied left to right. */
  function AplicarTodas(s: StatusEtapa, ts: seq<Transicao>): StatusEtapa
    decreases |ts|
  {
    if ts == [] then s else AplicarTodas(Aplicar(s, ts[0]), ts[1..])
  }

  /**
   * No backward transition: whatever calls are made, the status never goes down, and it
   * climbs by at most one step per call.
   */
  lemma {:induction false} SemRetrocesso(s: StatusEtapa, ts: seq<Transicao>)
    ensures Posicao(s) <= Posicao(AplicarTodas(s, ts)) <= Posicao(s) + |ts|
    decreases |ts|
  {
    if ts != [] {
      SemRetrocesso(Aplicar(s, ts[0]), ts[1..]);
    }
  }

  /** CONCLUIDA is terminal. */
  lemma {:induction false} ConcluidaTerminal(ts: seq<Transicao>)
    ensures AplicarTodas(CONCLUIDA, ts) == CONCLUIDA
    decreases |ts|
  {
    if ts != [] {
      ConcluidaTerminal(ts[1..]);
    }
  }

  // ---------------------------------------------------------------- string values

  /** The string each member stands for in src/enums/index.ts; the session reads these back. */
  function TextoNivel(n: NivelPermissao): string {
    match n
    case ADMINISTRADOR => "ADMINISTRADOR"
    case ENGENHEIRO => "ENGENHEIRO"
    case OPERADOR => "OPERADOR"
  }

  function TextoTipoTeste(t: TipoTeste): string {
    match t
    case ELETRICO => "ELETRICO"
    case HIDRAULICO => "HIDRAULICO"
    case AERODINAMICO => "AERODINAMICO"
  }

  function TextoResultado(r: ResultadoTeste): string {
    match r
    case APROVADO => "APROVADO"
    case REPROVADO => "REPROVADO"
  }
}
