/** Prompt templates as LangChain's `PromptTemplate` uses them: literal text with
    `{name}` placeholders that `format_prompt(**values)` fills in. */
module Prompts {

  datatype Segment = Lit(text: string) | Var(name: string)

  /** A template is its text cut at the placeholders. */
  type Template = seq<Segment>

  /** A template together with the input variables it was declared with. */
  datatype PromptTemplate = PromptTemplate(template: Template, inputVariables: seq<string>)

  /** The placeholder names a template mentions. */
  function Vars(t: Template): set<string> {
    set i | 0 <= i < |t| && t[i].Var? :: t[i].name
  }

  /** The declared input variables are exactly the placeholders of the template. */
  predicate Declared(p: PromptTemplate) {
    Vars(p.template) == set v | v in p.inputVariables
  }

  function Piece(s: Segment, env: map<string, string>): string
    requires s.Var? ==> s.name in env
  {
    match s
    case Lit(text) => text
    case Var(name) => env[name]
  }

  /** The text of the template with every placeholder replaced by its value. */
  function Render(t: Template, env: map<string, string>): string
    requires Vars(t) <= env.Keys
  {
    if t == [] then ""
    else
      assert Vars(t[1..]) <= Vars(t) by {
        forall x | x in Vars(t[1..]) ensures x in Vars(t) {
          var i :| 0 <= i < |t[1..]| && t[1..][i].Var? && t[1..][i].name == x;
          assert t[i + 1] == t[1..][i];
        }
      }
      Piece(t[0], env) + Render(t[1..], env)
  }

  /** Every value bound to a placeholder of the template appears, unchanged and
      contiguous, in the rendered text. */
  lemma {:induction false} RenderContains(t: Template, env: map<string, string>, i: nat)
    requires Vars(t) <= env.Keys
    requires i < |t| && t[i].Var?
    ensures exists a, b :: Render(t, env) == a + env[t[i].name] + b
  {
    assert t[i].name in Vars(t);
    if i == 0 {
      var b := Render(t[1..], env);
      assert Render(t, env) == [] + env[t[0].name] + b;
    } else {
      assert t[1..][i - 1] == t[i];
      RenderContains(t[1..], env, i - 1);
      var a, b :| Render(t[1..], env) == a + env[t[i].name] + b;
      assert Render(t, env) == (Piece(t[0], env) + a) + env[t[i].name] + b;
    }
  }
}
