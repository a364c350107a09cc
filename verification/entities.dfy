/** The three synchronised record types: the page wrapper each one's API
    uses, and the column table of each one's `insert_tickets`, in the order
    of the `REPLACE INTO` column list.  Column 0 is the primary key in all
    three tables. */
module Entities {
  import opened Wrappers
  import opened PyJson
  import opened Paginator
  import opened FieldMapper

  /** Tickets (`chamados`), time entries (`apontamentos`) and survey
      feedback (`feedbacks`). */
  datatype Entity = Chamados | Apontamentos | Feedbacks

  /** Tickets: nine direct columns, then the nested objects flattened with
      `(t.get(p) or {}).get(k)`; the key is `ticketKey`. */
  const ChamadosColumns: seq<Column> :=
    [
      Column("ticketKey", Top("ticketKey")),
      Column("titulo", Top("titulo")),
      Column("arquivado", Top("arquivado")),
      Column("lixeira", Top("lixeira")),
      Column("suspenso", Top("suspenso")),
      Column("impedido", Top("impedido")),
      Column("alvoDeSpam", Top("alvoDeSpam")),
      Column("tempoDeVidaEmDias", Top("tempoDeVidaEmDias")),
      Column("tempoCiclicoEmDias", Top("tempoCiclicoEmDias")),
      Column("kanbanStatusKey", Nested("kanbanStatus", "kanbanStatusKey")),
      Column("kanbanStatusdescricao", Nested("kanbanStatus", "descricao")),
      Column("kanbanStatusinicio", Nested("kanbanStatus", "inicio")),
      Column("kanbanStatusfim", Nested("kanbanStatus", "fim")),
      Column("kanbanStatusfila", Nested("kanbanStatus", "fila")),
      Column("organizacaoKey", Nested("organizacao", "organizacaoKey")),
      Column("organizacaonome", Nested("organizacao", "nome")),
      Column("organizacaoativo", Nested("organizacao", "ativo")),
      Column("equipeDeAtendimentoequipeKey", Nested("equipeDeAtendimento", "equipeKey")),
      Column("equipeDeAtendimentonome", Nested("equipeDeAtendimento", "nome")),
      Column("agenteUsuarioKey", Nested("agente", "usuarioKey")),
      Column("agenteNome", Nested("agente", "nome")),
      Column("agenteEmail", Nested("agente", "email")),
      Column("agenteUltimoAcessoEm", Nested("agente", "ultimoAcessoEm")),
      Column("categoriaKey", Nested("categoria", "categoriaKey")),
      Column("categoriadescricao", Nested("categoria", "descricao")),
      Column("tipoDeTicketKey", Nested("tipoDeTicket", "tipoDeTicketKey")),
      Column("tipoDeTicketDescricao", Nested("tipoDeTicket", "descricao")),
      Column("tipoDePrioridadeKey", Nested("tipoDePrioridade", "tipoDePrioridadeKey")),
      Column("tipoDePrioridadedescricao", Nested("tipoDePrioridade", "descricao")),
      Column("dataDeCriacao", Top("dataDeCriacao")),
      Column("dataDaUltimaAlteracao", Top("dataDaUltimaAlteracao")),
      Column("reporterUsuarioKey", Nested("reporter", "usuarioKey")),
      Column("reporterNome", Nested("reporter", "nome")),
      Column("reporterEmail", Nested("reporter", "email")),
      Column("origem", Top("origem")),
      Column("url", Top("url"))
    ]

  /** The parents of the nested ticket columns. */
  const ChamadosParents: seq<string> :=
    ["kanbanStatus", "organizacao", "equipeDeAtendimento", "agente", "categoria",
     "tipoDeTicket", "tipoDePrioridade", "reporter"]

  /** Time entries: 26 direct columns and `link_href` from the head of
      `links`; the key is `requestUUID`. */
  const ApontamentosColumns: seq<Column> :=
    [
      Column("requestUUID", Top("requestUUID")),
      Column("apontamentoKey", Top("apontamentoKey")),
      Column("ticketKey", Top("ticketKey")),
      Column("organizacaoDoTicketKey", Top("organizacaoDoTicketKey")),
      Column("organizacaoDoTicketNome", Top("organizacaoDoTicketNome")),
      Column("usuarioKey", Top("usuarioKey")),
      Column("usuarioNomeAbreviado", Top("usuarioNomeAbreviado")),
      Column("descricao", Top("descricao")),
      Column("dataDeCriacao", Top("dataDeCriacao")),
      Column("dataDeAlteracao", Top("dataDeAlteracao")),
      Column("dataDoLancamentoFormatada", Top("dataDoLancamentoFormatada")),
      Column("dataDoLancamento", Top("dataDoLancamento")),
      Column("horaDoLancamento", Top("horaDoLancamento")),
      Column("quantidade", Top("quantidade")),
      Column("quantidadeFormatada", Top("quantidadeFormatada")),
      Column("valorPorQuantidade", Top("valorPorQuantidade")),
      Column("bonificado", Top("bonificado")),
      Column("tipoDeApontamentoKey", Top("tipoDeApontamentoKey")),
      Column("permiteEditarApontamentosDeOutrosUsuarios", Top("permiteEditarApontamentosDeOutrosUsuarios")),
      Column("valorTotal", Top("valorTotal")),
      Column("valorCredito", Top("valorCredito")),
      Column("ativo", Top("ativo")),
      Column("moderado", Top("moderado")),
      Column("kanbanStatusDescricaoAtuacao", Top("kanbanStatusDescricaoAtuacao")),
      Column("excedeuTempoEstimado", Top("excedeuTempoEstimado")),
      Column("semSaldoTempoEstimado", Top("semSaldoTempoEstimado")),
      Column("link_href", Head("links", "href"))
    ]

  /** Feedback: nine direct columns and six from the head of `perguntas`,
      `statusPergunta` being that element's `"status"`; the key is
      `ticketId`. */
  const FeedbacksColumns: seq<Column> :=
    [
      Column("ticketId", Top("ticketId")),
      Column("pesquisaId", Top("pesquisaId")),
      Column("pesquisaNome", Top("pesquisaNome")),
      Column("dataDeProntoTicket", Top("dataDeProntoTicket")),
      Column("agenteId", Top("agenteId")),
      Column("agenteNome", Top("agenteNome")),
      Column("comentarios", Top("comentarios")),
      Column("avaliacaoMedia", Top("avaliacaoMedia")),
      Column("status", Top("status")),
      Column("pergunta", Head("perguntas", "pergunta")),
      Column("nota", Head("perguntas", "nota")),
      Column("usuarioAvaliacaoId", Head("perguntas", "usuarioAvaliacaoId")),
      Column("usuarioAvaliacaoNome", Head("perguntas", "usuarioAvaliacaoNome")),
      Column("dataDeAvaliacao", Head("perguntas", "dataDeAvaliacao")),
      Column("statusPergunta", Head("perguntas", "status"))
    ]

  function Columns(e: Entity): seq<Column> {
    match e
    case Chamados => ChamadosColumns
    case Apontamentos => ApontamentosColumns
    case Feedbacks => FeedbacksColumns
  }

  /** `data.get("data", data)` for tickets and feedback, `data.get("content", [])`
      for time entries. */
  function Wrapping(e: Entity): Wrapper {
    match e
    case Chamados => DataOrWhole
    case Apontamentos => ContentOrEmpty
    case Feedbacks => DataOrWhole
  }

  /** The primary-key column of each table. */
  function KeyName(e: Entity): string {
    match e
    case Chamados => "ticketKey"
    case Apontamentos => "requestUUID"
    case Feedbacks => "ticketId"
  }

  /** The number of declared columns of each table. */
  function Width(e: Entity): nat {
    match e
    case Chamados => 36
    case Apontamentos => 27
    case Feedbacks => 15
  }

  /** One record mapped to its row: exactly the declared columns, the key
      column holding `t.get(<key>)`; a record that is not a dict raises. */
  function MapRecord(e: Entity, t: Json): (r: Py<Row>)
    ensures r.Returns? ==> |r.value| == Width(e)
    ensures r.Returns? ==> t.Obj? && r.value[0] == GetOrNull(t.fields, KeyName(e))
    ensures !t.Obj? ==> r == Raises
  {
    Flatten(Columns(e), t)
  }

  /** Every ticket column is a direct lookup or is flattened from one of
      `ChamadosParents`. */
  lemma ChamadosShape()
    ensures forall i :: 0 <= i < |ChamadosColumns| ==>
              ChamadosColumns[i].source.Top?
              || (ChamadosColumns[i].source.Nested? && ChamadosColumns[i].source.parent in ChamadosParents)
  {
  }

  /** Every one of `ChamadosParents` feeds at least one column: the first
      column flattened from parent j is column `ParentColumns[j]`. */
  const ParentColumns: seq<int> := [9, 14, 17, 19, 23, 25, 27, 31]

  lemma ChamadosParentsUsed()
    ensures |ParentColumns| == |ChamadosParents|
    ensures forall j :: 0 <= j < |ParentColumns| ==>
              0 <= ParentColumns[j] < |ChamadosColumns|
              && ChamadosColumns[ParentColumns[j]].source.Nested?
              && ChamadosColumns[ParentColumns[j]].source.parent == ChamadosParents[j]
  {
  }

  /** A ticket maps without raising exactly when it is a dict and each of
      its nested objects is either falsy or a dict. */
  lemma ChamadosRaisesExactly(t: Json)
    ensures MapRecord(Chamados, t).Returns? <==>
              t.Obj? && forall p :: p in ChamadosParents ==> ParentOk(t.fields, p)
  {
    var cols := ChamadosColumns;
    ChamadosShape();
    ChamadosParentsUsed();
    forall p | p in ChamadosParents
      ensures exists i :: 0 <= i < |cols| && cols[i].source.Nested? && cols[i].source.parent == p
    {
      var j :| 0 <= j < |ChamadosParents| && ChamadosParents[j] == p;
      assert cols[ParentColumns[j]].source.parent == p;
    }
    RaisesOnlyOnParents(cols, t, ChamadosParents);
  }

  /** When a ticket's nested object `p` is absent, null or otherwise falsy,
      every column flattened from it is null. */
  lemma ChamadosFalsyParentGivesNulls(t: Json, p: string)
    requires MapRecord(Chamados, t).Returns?
    requires !Truthy(GetOrNull(t.fields, p))
    ensures forall i :: 0 <= i < |ChamadosColumns| && ChamadosColumns[i].source.Nested?
                        && ChamadosColumns[i].source.parent == p
                        ==> MapRecord(Chamados, t).value[i] == Null
  {
    forall i | 0 <= i < |ChamadosColumns| && ChamadosColumns[i].source.Nested? && ChamadosColumns[i].source.parent == p
      ensures MapRecord(Chamados, t).value[i] == Null
    {
      AbsentSourceGivesNull(ChamadosColumns, t, i);
    }
  }

  /** The thirteen direct ticket columns, 0 .. 8, 29, 30, 34 and 35, each
      read the top-level member of their own name. */
  lemma ChamadosDirectShape()
    ensures forall i :: 0 <= i < 9 ==> ChamadosColumns[i].source == Top(ChamadosColumns[i].name)
    ensures forall i :: 29 <= i < 31 ==> ChamadosColumns[i].source == Top(ChamadosColumns[i].name)
    ensures forall i :: 34 <= i < 36 ==> ChamadosColumns[i].source == Top(ChamadosColumns[i].name)
  {
  }

  /** Each direct ticket column (0 .. 8, 29, 30, 34, 35) holds the ticket's
      top-level member of the same name, null when absent. */
  lemma ChamadosDirectColumnsRead(t: Json)
    requires MapRecord(Chamados, t).Returns?
    ensures var row := MapRecord(Chamados, t).value;
            forall i :: (0 <= i < 9 || 29 <= i < 31 || 34 <= i < 36) ==>
              row[i] == GetOrNull(t.fields, ChamadosColumns[i].name)
  {
    ChamadosDirectShape();
    TopColumnsRead(ChamadosColumns, t, 0, 9);
    TopColumnsRead(ChamadosColumns, t, 29, 31);
    TopColumnsRead(ChamadosColumns, t, 34, 36);
  }

  /** A run of nested ticket columns: from column `first` on, the members
      `keys` of the parent object `parent`. */
  datatype Group = Group(first: nat, parent: string, keys: seq<string>)

  /** The eight nested groups of the ticket table, in column order. */
  const ChamadosGroups: seq<Group> :=
    [
      Group(9, "kanbanStatus", ["kanbanStatusKey", "descricao", "inicio", "fim", "fila"]),
      Group(14, "organizacao", ["organizacaoKey", "nome", "ativo"]),
      Group(17, "equipeDeAtendimento", ["equipeKey", "nome"]),
      Group(19, "agente", ["usuarioKey", "nome", "email", "ultimoAcessoEm"]),
      Group(23, "categoria", ["categoriaKey", "descricao"]),
      Group(25, "tipoDeTicket", ["tipoDeTicketKey", "descricao"]),
      Group(27, "tipoDePrioridade", ["tipoDePrioridadeKey", "descricao"]),
      Group(31, "reporter", ["usuarioKey", "nome", "email"])
    ]

  /** Group `g` names the nested columns it covers. */
  predicate GroupCovers(g: int)
    requires 0 <= g < |ChamadosGroups|
  {
    ChamadosGroups[g].first + |ChamadosGroups[g].keys| <= |ChamadosColumns|
    && forall j :: 0 <= j < |ChamadosGroups[g].keys| ==>
         ChamadosColumns[ChamadosGroups[g].first + j].source
         == Nested(ChamadosGroups[g].parent, ChamadosGroups[g].keys[j])
  }

  lemma ChamadosGroupsShape()
    ensures forall g :: 0 <= g < |ChamadosGroups| ==> GroupCovers(g)
  {
    LowGroupsShape();
    HighGroupsShape();
  }

  lemma LowGroupsShape()
    ensures forall g :: 0 <= g < 4 ==> GroupCovers(g)
  {
  }

  lemma HighGroupsShape()
    ensures forall g :: 4 <= g < 8 ==> GroupCovers(g)
  {
  }

  /** Each nested ticket column holds the named member of its parent object
      when that is a dict, and null otherwise: for every group, the row's
      columns `first ..` are the parent's members `keys`. */
  lemma ChamadosNestedColumnsRead(t: Json)
    requires MapRecord(Chamados, t).Returns?
    ensures forall g :: 0 <= g < |ChamadosGroups| ==>
              var G := ChamadosGroups[g];
              G.first + |G.keys| <= |MapRecord(Chamados, t).value|
              && MapRecord(Chamados, t).value[G.first..G.first + |G.keys|] == NestedRow(t.fields, G.parent, G.keys)
  {
    ChamadosGroupsShape();
    forall g | 0 <= g < |ChamadosGroups|
      ensures var G := ChamadosGroups[g];
              G.first + |G.keys| <= |MapRecord(Chamados, t).value|
              && MapRecord(Chamados, t).value[G.first..G.first + |G.keys|] == NestedRow(t.fields, G.parent, G.keys)
    {
      GroupRead(t, g);
    }
  }

  /** One group read off a mapped ticket. */
  lemma GroupRead(t: Json, g: int)
    requires MapRecord(Chamados, t).Returns?
    requires 0 <= g < |ChamadosGroups| && GroupCovers(g)
    ensures var G := ChamadosGroups[g];
            G.first + |G.keys| <= |MapRecord(Chamados, t).value|
            && MapRecord(Chamados, t).value[G.first..G.first + |G.keys|] == NestedRow(t.fields, G.parent, G.keys)
  {
    var G := ChamadosGroups[g];
    NestedColumnsRead(ChamadosColumns, t, G.first, G.parent, G.keys);
  }

  lemma NoParentIsTicketKey(p: string)
    requires p in ChamadosParents
    ensures p != "ticketKey"
  {
  }

  /** Column 14 of the ticket table is `organizacaoKey`, read from `organizacao`. */
  lemma ChamadosOrganizacaoKeyColumn()
    ensures ChamadosColumns[14] == Column("organizacaoKey", Nested("organizacao", "organizacaoKey"))
  {
  }

  /** `{"ticketKey": 42, "organizacao": null}` maps to a row whose key is 42
      and whose `organizacaoKey` (column 14) is null. */
  lemma ChamadosNullOrganizacaoExample()
    ensures var t := Obj([Field("ticketKey", Int(42)), Field("organizacao", Null)]);
            && MapRecord(Chamados, t).Returns?
            && MapRecord(Chamados, t).value[0] == Int(42)
            && MapRecord(Chamados, t).value[14] == Null
  {
    var fs := [Field("ticketKey", Int(42)), Field("organizacao", Null)];
    var t := Obj(fs);
    assert fs[..1] == [Field("ticketKey", Int(42))];
    assert fs[..1][..0] == [];
    forall p | p in ChamadosParents
      ensures ParentOk(fs, p)
    {
      NoParentIsTicketKey(p);
      assert GetOrNull(fs, p) == Null;
    }
    ChamadosRaisesExactly(t);
    assert GetOrNull(fs, "ticketKey") == Int(42);
    ChamadosOrganizacaoKeyColumn();
    assert GetOrNull(fs, "organizacao") == Null;
    AbsentSourceGivesNull(ChamadosColumns, t, 14);
  }

  /** The first 26 time-entry columns are same-named direct lookups. */
  lemma ApontamentosShape()
    ensures forall i :: 0 <= i < 26 ==> ApontamentosColumns[i].source == Top(ApontamentosColumns[i].name)
    ensures ApontamentosColumns[26] == Column("link_href", Head("links", "href"))
  {
  }

  /** A time entry's `link_href` is the `href` of the first element of
      `links` when that is a non-empty list, and null otherwise; its other
      26 columns are the same-named top-level lookups. */
  lemma ApontamentosColumnsRead(t: Json)
    requires MapRecord(Apontamentos, t).Returns?
    ensures var row := MapRecord(Apontamentos, t).value;
            row[26] == HeadMember(GetOrNull(t.fields, "links"), "href")
    ensures var row := MapRecord(Apontamentos, t).value;
            forall i :: 0 <= i < 26 ==> row[i] == GetOrNull(t.fields, ApontamentosColumns[i].name)
  {
    ApontamentosShape();
    HeadColumnReadsFirst(ApontamentosColumns, t, 26);
    TopColumnsRead(ApontamentosColumns, t, 0, 26);
  }

  /** A time entry maps without raising exactly when it is a dict whose
      `links`, if a non-empty list, starts with a dict. */
  lemma ApontamentosRaisesExactly(t: Json)
    ensures MapRecord(Apontamentos, t).Returns? <==> t.Obj? && HeadOk(t.fields, "links")
  {
    ApontamentosShape();
    RaisesOnlyOnHead(ApontamentosColumns, t, "links", 26);
  }

  /** The member of the first `perguntas` element each of the six question
      columns reads. */
  const PerguntaKeys: seq<string> :=
    ["pergunta", "nota", "usuarioAvaliacaoId", "usuarioAvaliacaoNome", "dataDeAvaliacao", "status"]

  /** The first nine feedback columns are same-named direct lookups, the
      last six read `PerguntaKeys` from the head of `perguntas`. */
  lemma FeedbacksShape()
    ensures forall i :: 0 <= i < 9 ==> FeedbacksColumns[i].source == Top(FeedbacksColumns[i].name)
    ensures forall j :: 0 <= j < 6 ==> FeedbacksColumns[9 + j].source == Head("perguntas", PerguntaKeys[j])
    ensures forall i :: 9 <= i < 15 ==> FeedbacksColumns[i].source.Head? && FeedbacksColumns[i].source.list == "perguntas"
    ensures FeedbacksColumns[14].name == "statusPergunta" && PerguntaKeys[5] == "status"
  {
  }

  /** A feedback's six question columns come from the first element of
      `perguntas` when that is a non-empty list -- `statusPergunta` from its
      `"status"` -- and are all null otherwise; its other nine columns are
      the same-named top-level lookups. */
  lemma FeedbacksColumnsRead(t: Json)
    requires MapRecord(Feedbacks, t).Returns?
    ensures var row := MapRecord(Feedbacks, t).value;
            forall j :: 0 <= j < 6 ==> row[9 + j] == HeadMember(GetOrNull(t.fields, "perguntas"), PerguntaKeys[j])
    ensures var row := MapRecord(Feedbacks, t).value;
            forall i :: 0 <= i < 9 ==> row[i] == GetOrNull(t.fields, FeedbacksColumns[i].name)
  {
    FeedbacksShape();
    HeadColumnsRead(FeedbacksColumns, t, 9, "perguntas", PerguntaKeys);
    TopColumnsRead(FeedbacksColumns, t, 0, 9);
  }

  /** A feedback maps without raising exactly when it is a dict whose
      `perguntas`, if a non-empty list, starts with a dict. */
  lemma FeedbacksRaisesExactly(t: Json)
    ensures MapRecord(Feedbacks, t).Returns? <==> t.Obj? && HeadOk(t.fields, "perguntas")
  {
    FeedbacksShape();
    RaisesOnlyOnHead(FeedbacksColumns, t, "perguntas", 9);
  }
}
