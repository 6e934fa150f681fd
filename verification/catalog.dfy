/** The fixed operator catalog `dorks_db` and the rows of its reference table. */
module Catalog {

  /** One catalog entry: the operator name (the dictionary key), its purpose,
      whether it mixes with other operators, whether it works alone, and the
      search services that support it. The two flags are free text in the
      catalog ("sim", "não", "não muito", "como intitle"). */
  datatype Operator = Operator(
    name: string,
    purpose: string,
    mixes: string,
    standalone: string,
    services: seq<string>)

  const Web := "web"
  const Images := "imagens"
  const Groups := "grupos"
  const News := "notícias"

  /** The catalog, in the dictionary's insertion order. */
  const Dorks: seq<Operator> := [
    OpIntitle,
    OpAllintitle,
    OpInurl,
    OpAllinurl,
    OpFiletype,
    OpAllintext,
    OpSite,
    OpLink,
    OpInanchor,
    OpNumrange,
    OpDaterange,
    OpAuthor,
    OpGroup,
    OpInsubject,
    OpMsgid
  ]

  const OpIntitle := Operator("intitle", "Pesquisa no título da página", "sim", "sim", [Web, Images, Groups, News])
  const OpAllintitle := Operator("allintitle", "Título da página (todas palavras)", "não", "sim", [Web, Images, Groups, News])
  const OpInurl := Operator("inurl", "Pesquisa na URL", "sim", "sim", [Web, Images, Groups, News])
  const OpAllinurl := Operator("allinurl", "URL (todas palavras)", "não", "sim", [Web, Images, Groups, News])
  const OpFiletype := Operator("filetype", "Pesquisa arquivos específicos", "sim", "não muito", [Web, Groups])
  const OpAllintext := Operator("allintext", "Apenas texto da página", "não muito", "sim", [Web, Images, Groups, News])
  const OpSite := Operator("site", "Pesquisa site específico", "sim", "não muito", [Web, Images, Groups])
  const OpLink := Operator("link", "Links para páginas", "não", "não muito", [Web])
  const OpInanchor := Operator("inanchor", "Texto âncora de links", "sim", "sim", [Web, Images, Groups, News])
  const OpNumrange := Operator("numrange", "Localiza números", "sim", "não muito", [Web, Images, Groups])
  const OpDaterange := Operator("daterange", "Faixa de datas", "sim", "não muito", [Web, Groups])
  const OpAuthor := Operator("author", "Autor do grupo", "sim", "não muito", [Groups, News])
  const OpGroup := Operator("group", "Nome do grupo", "não muito", "sim", [Groups])
  const OpInsubject := Operator("insubject", "Assunto do grupo", "sim", "como intitle", [Groups])
  const OpMsgid := Operator("msgid", "ID da mensagem do grupo", "não", "não muito", [Groups])

  /** The names of a catalog, in order (the dictionary's keys). */
  function Names(cat: seq<Operator>): (names: seq<string>)
  {
    seq(|cat|, i requires 0 <= i < |cat| => cat[i].name)
  }

  /** Dictionary keys are unique. */
  predicate DistinctNames(cat: seq<Operator>)
  {
    forall i, j :: 0 <= i < j < |cat| ==> cat[i].name != cat[j].name
  }

  /** Every service the entry lists is one of the four the table has a column for. */
  predicate EntryServicesKnown(o: Operator)
  {
    forall s :: s in o.services ==> s == Web || s == Images || s == Groups || s == News
  }

  /** Every entry lists only services the table has a column for. */
  predicate AllServicesKnown(cat: seq<Operator>)
  {
    forall i :: 0 <= i < |cat| ==> EntryServicesKnown(cat[i])
  }

  /** `op in self.dorks_db`: the operator is a key of the catalog. */
  predicate IsKnown(cat: seq<Operator>, op: string): (b: bool)
    ensures b <==> exists i :: 0 <= i < |cat| && cat[i].name == op
  {
    assert forall i :: 0 <= i < |cat| ==> Names(cat)[i] == cat[i].name;
    op in Names(cat)
  }

  /** The catalog has fifteen entries under fifteen different names, and lists
      no service outside the table's four columns. */
  lemma CatalogShape()
    ensures |Dorks| == 15
    ensures DistinctNames(Dorks)
    ensures AllServicesKnown(Dorks)
  {
    CatalogDistinct();
    CatalogServices();
  }

  /** No two catalog entries share a name. */
  lemma CatalogDistinct()
    ensures DistinctNames(Dorks)
  {
    var names := ["intitle", "allintitle", "inurl", "allinurl", "filetype", "allintext", "site",
                  "link", "inanchor", "numrange", "daterange", "author", "group", "insubject", "msgid"];
    assert forall i :: 0 <= i < |Dorks| ==> Dorks[i].name == names[i];
    assert forall i, j :: 0 <= i < j < |names| ==> names[i] != names[j];
  }

  /** The catalog lists only the four services the table shows. */
  lemma CatalogServices()
    ensures AllServicesKnown(Dorks)
  {
  }

  /** The catalog's keys, in order. */
  lemma CatalogNames()
    ensures Names(Dorks) == ["intitle", "allintitle", "inurl", "allinurl", "filetype", "allintext", "site",
                             "link", "inanchor", "numrange", "daterange", "author", "group", "insubject", "msgid"]
  {
    var names := ["intitle", "allintitle", "inurl", "allinurl", "filetype", "allintext", "site",
                  "link", "inanchor", "numrange", "daterange", "author", "group", "insubject", "msgid"];
    assert forall i :: 0 <= i < |Dorks| ==> Names(Dorks)[i] == names[i];
  }

  /** Membership of the operators used in the worked query examples. */
  lemma ExampleOperators()
    ensures IsKnown(Dorks, "intitle")
    ensures !IsKnown(Dorks, "unknownop")
  {
    assert Names(Dorks)[0] == "intitle";
    CatalogNames();
  }

  /** One printed table row; the four service flags are shown as ✅ or ❌. */
  datatype TableRow = TableRow(
    operator: string,
    purpose: string,
    mixes: string,
    standalone: string,
    web: bool,
    images: bool,
    groups: bool,
    news: bool)

  /** The row printed for one entry: its four text columns, and a ✅ for
      exactly those of the four table services that the entry lists. */
  function RowOf(o: Operator): (row: TableRow)
    ensures row.operator == o.name && row.purpose == o.purpose
    ensures row.mixes == o.mixes && row.standalone == o.standalone
    ensures MarkedServices(row) == (set s | s in o.services) * {Web, Images, Groups, News}
  {
    TableRow(o.name, o.purpose, o.mixes, o.standalone,
             Web in o.services, Images in o.services, Groups in o.services, News in o.services)
  }

  /** The rows `mostrar_tabela_dorks` prints, one per entry, in catalog order. */
  function TableRows(cat: seq<Operator>): (rows: seq<TableRow>)
    ensures |rows| == |cat|
    ensures forall i :: 0 <= i < |cat| ==>
      && rows[i].operator == cat[i].name
      && rows[i].purpose == cat[i].purpose
      && rows[i].mixes == cat[i].mixes
      && rows[i].standalone == cat[i].standalone
    ensures forall i :: 0 <= i < |cat| ==>
      && (rows[i].web <==> Web in cat[i].services)
      && (rows[i].images <==> Images in cat[i].services)
      && (rows[i].groups <==> Groups in cat[i].services)
      && (rows[i].news <==> News in cat[i].services)
  {
    if |cat| == 0 then [] else [RowOf(cat[0])] + TableRows(cat[1..])
  }

  /** The set of services a row marks with ✅. */
  function MarkedServices(row: TableRow): (marked: set<string>)
  {
    (if row.web then {Web} else {})
    + (if row.images then {Images} else {})
    + (if row.groups then {Groups} else {})
    + (if row.news then {News} else {})
  }

  /** When an entry lists only the four known services, the ✅ marks of its
      row give back exactly the services it lists. */
  lemma RowMarksServices(o: Operator)
    requires EntryServicesKnown(o)
    ensures MarkedServices(RowOf(o)) == set s | s in o.services
  {
    var listed := set s | s in o.services;
    var marked := MarkedServices(RowOf(o));
    forall s | s in listed ensures s in marked { }
    forall s | s in marked ensures s in listed { }
  }

  /** The table names every operator exactly once and in catalog order, and
      the ✅ marks of each row give back exactly the services of its entry. */
  lemma TableFaithful(cat: seq<Operator>)
    requires DistinctNames(cat)
    requires AllServicesKnown(cat)
    ensures |TableRows(cat)| == |cat|
    ensures forall i :: 0 <= i < |cat| ==> TableRows(cat)[i].operator == Names(cat)[i]
    ensures forall i, j :: 0 <= i < j < |cat| ==> TableRows(cat)[i].operator != TableRows(cat)[j].operator
    ensures forall i :: 0 <= i < |cat| ==> MarkedServices(TableRows(cat)[i]) == set s | s in cat[i].services
  {
    var rows := TableRows(cat);
    forall i | 0 <= i < |cat|
      ensures MarkedServices(rows[i]) == set s | s in cat[i].services
    {
      assert rows[i] == RowOf(cat[i]);
      RowMarksServices(cat[i]);
    }
  }

  /** The table of the real catalog: fifteen rows, one per operator. */
  lemma CatalogTable()
    ensures |TableRows(Dorks)| == 15
    ensures forall i, j :: 0 <= i < j < 15 ==> TableRows(Dorks)[i].operator != TableRows(Dorks)[j].operator
    ensures TableRows(Dorks)[0] == TableRow("intitle", "Pesquisa no título da página", "sim", "sim", true, true, true, true)
    ensures TableRows(Dorks)[14] == TableRow("msgid", "ID da mensagem do grupo", "não", "não muito", false, false, true, false)
  {
    CatalogShape();
    TableFaithful(Dorks);
  }
}
