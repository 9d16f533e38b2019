/** The prompt template table (modules/prompt_manager.py). The table is
    class-level state in the source, shared by every user; here it is one
    object whose fields `add_custom_prompt` updates. */
module PromptManager {
  import opened Outcomes
  import opened Text

  /** The names of the ten built-in prompts, in the table's order. */
  const BuiltinNames: seq<string> := [
    "Resumo",
    "Extrair Informações Principais",
    "Análise de Dados",
    "Perguntas e Respostas",
    "Estrutura do Documento",
    "Extrair Entidades",
    "Análise de Sentimento",
    "Extrair Ações e Tarefas",
    "Comparação e Contraste",
    "Resumo Executivo"]

  /** The text of built-in prompt `i` that precedes the `{content}` field,
      which ends every built-in template. */
  function BuiltinPrefix(i: nat): string
    requires i < |BuiltinNames|
  {
    match i
    case 0 => "Forneça um resumo detalhado e estruturado do seguinte documento. Inclua os pontos principais, conclusões e informações relevantes:\n\n"
    case 1 => "Extraia as informações principais do documento abaixo. Liste os pontos mais importantes de forma organizada:\n\n"
    case 2 => "Analise o documento e extraia todos os dados numéricos, datas, métricas, valores financeiros e estatísticas importantes. Organize em uma lista estruturada:\n\n"
    case 3 => "Leia cuidadosamente o documento e responda às seguintes perguntas de forma clara e objetiva:\n1. Qual é o assunto principal do documento?\n2. Quais são as conclusões apresentadas?\n3. Quais são as recomendações ou próximos passos?\n4. Quais são os pontos-chave que devem ser destacados?\n\nDocumento:\n"
    case 4 => "Identifique e descreva a estrutura do documento, incluindo:\n- Seções principais e subtópicos\n- Organização do conteúdo\n- Hierarquia de informações\n- Fluxo lógico do documento\n\nDocumento:\n"
    case 5 => "Extraia do documento todas as entidades importantes, organizando-as por categoria:\n- Nomes de pessoas\n- Organizações e empresas\n- Locais e endereços\n- Datas e períodos\n- Valores monetários e números\n- Termos técnicos e conceitos-chave\n\nDocumento:\n"
    case 6 => "Analise o tom e sentimento do documento. Identifique:\n- Tom geral (positivo, neutro, negativo)\n- Linguagem utilizada\n- Pontos de destaque emocional\n- Recomendações ou críticas apresentadas\n\nDocumento:\n"
    case 7 => "Identifique e liste todas as ações, tarefas, responsabilidades e próximos passos mencionados no documento:\n\n"
    case 8 => "Se o documento contém comparações ou contrastes, identifique e descreva:\n- Elementos comparados\n- Diferenças e semelhanças\n- Conclusões das comparações\n\nDocumento:\n"
    case _ => "Crie um resumo executivo do documento, destacando:\n- Objetivo principal\n- Principais descobertas\n- Recomendações estratégicas\n- Impacto e implicações\n\nDocumento:\n"
  }

  /** No two built-in names are equal: they differ in length or in their
      first letter. */
  lemma BuiltinNamesDistinct()
    ensures Distinct(BuiltinNames)
  {
    var lens := [6, 30, 16, 21, 22, 17, 21, 23, 22, 16];
    var firsts := "REAPEEAECR";
    assert forall i :: 0 <= i < |BuiltinNames| ==> |BuiltinNames[i]| == lens[i] && BuiltinNames[i][0] == firsts[i];
    assert forall i, j :: 0 <= i < j < |BuiltinNames| ==> lens[i] != lens[j] || firsts[i] != firsts[j];
  }

  function BuiltinTemplate(i: nat): string
    requires i < |BuiltinNames|
  {
    BuiltinPrefix(i) + Placeholder
  }

  /** The built-in table: each built-in name maps to its template. */
  function BuiltinTable(): map<string, string>
  {
    BuiltinNamesDistinct();
    map i | 0 <= i < |BuiltinNames| :: BuiltinNames[i] := BuiltinTemplate(i)
  }

  /** Every built-in name is in the table, with its own template. */
  lemma BuiltinTableAt(i: nat)
    requires i < |BuiltinNames|
    ensures BuiltinNames[i] in BuiltinTable() && BuiltinTable()[BuiltinNames[i]] == BuiltinTemplate(i)
  {
    BuiltinNamesDistinct();
  }

  /** Every built-in template holds the `{content}` field. */
  lemma BuiltinTemplateField(i: nat)
    requires i < |BuiltinNames|
    ensures Contains(BuiltinTemplate(i), Placeholder)
  {
    var p := BuiltinPrefix(i);
    ContainsMiddle(p, Placeholder, "");
    assert p + Placeholder + "" == p + Placeholder;
  }

  const NoPlaceholderMessage: string :=
    "Template deve conter {content} como placeholder para o conteúdo do documento"

  /** `format_prompt`: a template with the `{content}` field is formatted
      with the content; any other template gets the content appended after
      a "Documento:" line. */
  function FormatPrompt(template: string, content: string): (r: Result<string>)
    ensures !Contains(template, Placeholder) ==> r == Ok(template + "\n\nDocumento:\n" + content)
    ensures Contains(template, Placeholder) ==> r == Format(template, content)
  {
    if Contains(template, Placeholder) then Format(template, content)
    else Ok(template + "\n\nDocumento:\n" + content)
  }

  /** A template of brace-free text around one `{content}` field puts the
      content in the field's place. */
  lemma FormatPromptField(p: string, q: string, content: string)
    requires NoBraces(p) && NoBraces(q)
    ensures FormatPrompt(p + Placeholder + q, content) == Ok(p + content + q)
  {
    ContainsMiddle(p, Placeholder, q);
    FormatOneField(p, q, content);
  }

  class PromptTable {
    /** The prompt names in insertion order. */
    var names: seq<string>
    var templates: map<string, string>

    /** The names list the table's keys once each, and every template holds
        the `{content}` field. */
    ghost predicate Valid()
      reads this
    {
      Distinct(names) &&
      (forall n :: n in templates <==> n in names) &&
      (forall n :: n in templates ==> Contains(templates[n], Placeholder))
    }

    /** The table as the module defines it: the ten built-ins. */
    constructor()
      ensures Valid()
      ensures names == BuiltinNames
      ensures forall i :: 0 <= i < |BuiltinNames| ==> templates[BuiltinNames[i]] == BuiltinTemplate(i)
    {
      BuiltinNamesDistinct();
      names := BuiltinNames;
      templates := BuiltinTable();
      new;
      forall i | 0 <= i < |BuiltinNames|
        ensures BuiltinNames[i] in templates && templates[BuiltinNames[i]] == BuiltinTemplate(i)
        ensures Contains(templates[BuiltinNames[i]], Placeholder)
      {
        BuiltinTableAt(i);
        BuiltinTemplateField(i);
      }
      assert forall n :: n in templates ==> exists i :: 0 <= i < |BuiltinNames| && BuiltinNames[i] == n;
    }

    /** `get_prompt`. */
    function GetPrompt(name: string): (r: Result<string>)
      reads this
      requires Valid()
      ensures name in templates ==> r == Ok(templates[name]) && Contains(r.value, Placeholder)
      ensures name !in templates ==>
        r == Err(KeyError("Prompt '" + name + "' não encontrado. Prompts disponíveis: " + Join(", ", names)))
    {
      if name !in templates then
        Err(KeyError("Prompt '" + name + "' não encontrado. Prompts disponíveis: " + Join(", ", names)))
      else Ok(templates[name])
    }

    /** `list_prompts`: the table's keys, each once, in insertion order. */
    function ListPrompts(): (r: seq<string>)
      reads this
      requires Valid()
      ensures Distinct(r)
      ensures forall n :: n in r <==> n in templates
    {
      names
    }

    /** `add_custom_prompt`: a template without `{content}` is refused and
        the table is left as it was; otherwise only `name` changes, keeping
        its place if it was already there. */
    method AddCustomPrompt(name: string, template: string) returns (r: Result<()>)
      requires Valid()
      modifies this
      ensures Valid()
      ensures !Contains(template, Placeholder) ==>
        r == Err(ValueError(NoPlaceholderMessage)) && names == old(names) && templates == old(templates)
      ensures Contains(template, Placeholder) ==>
        r == Ok(()) && templates == old(templates)[name := template] &&
        names == if name in old(names) then old(names) else old(names) + [name]
    {
      if !Contains(template, Placeholder) {
        return Err(ValueError(NoPlaceholderMessage));
      }
      if name !in templates {
        names := names + [name];
      }
      templates := templates[name := template];
      r := Ok(());
    }
  }
}
