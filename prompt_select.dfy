/**
 * The prompt selector of the web client: a list of prompt templates fetched
 * from the server (absent until the fetch completes), rendered as one option
 * per template, and a handler that hands the chosen template's text to the
 * parent.
 */
module PromptSelection {
  import opened Common

  /** A prompt template as the server lists it. */
  datatype Prompt = Prompt(id: string, title: string, template: string)

  /** `Array.prototype.find` on the ids: the first prompt with id `id`. */
  function Find(ps: seq<Prompt>, id: string): (r: Option<Prompt>)
    ensures r.None? <==> forall j :: 0 <= j < |ps| ==> ps[j].id != id
    ensures r.Some? ==> exists k :: 0 <= k < |ps| && ps[k] == r.value && r.value.id == id
                                    && forall j :: 0 <= j < k ==> ps[j].id != id
  {
    if ps == [] then None
    else if ps[0].id == id then Some(ps[0])
    else
      var r := Find(ps[1..], id);
      assert r.Some? ==> exists k :: 1 <= k < |ps| && ps[k] == r.value && r.value.id == id
                                     && forall j :: 0 <= j < k ==> ps[j].id != id by {
        if r.Some? {
          var k' :| 0 <= k' < |ps[1..]| && ps[1..][k'] == r.value && r.value.id == id
                    && forall j :: 0 <= j < k' ==> ps[1..][j].id != id;
          assert ps[k' + 1] == r.value;
          assert forall j :: 0 <= j < k' + 1 ==> ps[j].id != id by {
            forall j | 0 <= j < k' + 1 ensures ps[j].id != id {
              if j > 0 { assert ps[j] == ps[1..][j - 1]; }
            }
          }
        }
      }
      assert r.None? ==> forall j :: 0 <= j < |ps| ==> ps[j].id != id by {
        if r.None? {
          forall j | 0 <= j < |ps| ensures ps[j].id != id {
            if j > 0 { assert ps[j] == ps[1..][j - 1]; }
          }
        }
      }
      r
  }

  /** The template `handleSelected` hands to `onSelected`, or `None` when it
      returns early: the list is not loaded yet, or no prompt has that id.
      When several prompts share the id, the first one wins; its template is
      passed on exactly as stored. */
  function SelectedTemplate(prompts: Option<seq<Prompt>>, id: string): (r: Option<string>)
    ensures prompts.None? ==> r.None?
    ensures prompts.Some? ==> (r.None? <==> forall j :: 0 <= j < |prompts.value| ==> prompts.value[j].id != id)
    ensures prompts.Some? ==>
      forall k :: 0 <= k < |prompts.value| && prompts.value[k].id == id
                  && (forall j :: 0 <= j < k ==> prompts.value[j].id != id)
                  ==> r == Some(prompts.value[k].template)
  {
    match prompts
    case None => None
    case Some(ps) =>
      match Find(ps, id)
      case None => None
      case Some(p) =>
        assert forall k :: 0 <= k < |ps| && ps[k].id == id && (forall j :: 0 <= j < k ==> ps[j].id != id)
                           ==> ps[k] == p by {
          var k' :| 0 <= k' < |ps| && ps[k'] == p && p.id == id && forall j :: 0 <= j < k' ==> ps[j].id != id;
        }
        Some(p.template)
  }

  /** One `<SelectItem>`: its React key, its value and its visible text. */
  datatype SelectItem = SelectItem(key: string, value: string, text: string)

  /** The options rendered for a loaded list: one per prompt, in list order,
      keyed and valued by the id and labelled by the title. */
  function RenderItems(ps: seq<Prompt>): (items: seq<SelectItem>)
    ensures |items| == |ps|
    ensures forall i :: 0 <= i < |ps| ==> items[i] == SelectItem(ps[i].id, ps[i].id, ps[i].title)
  {
    if ps == [] then []
    else [SelectItem(ps[0].id, ps[0].id, ps[0].title)] + RenderItems(ps[1..])
  }

  /** `prompts?.map(...)`: nothing is rendered before the list is loaded. */
  function RenderedItems(prompts: Option<seq<Prompt>>): (items: seq<SelectItem>)
    ensures prompts.None? ==> items == []
    ensures prompts.Some? ==> items == RenderItems(prompts.value)
  {
    match prompts
    case None => []
    case Some(ps) => RenderItems(ps)
  }

  /** Choosing any rendered option always reaches `onSelected`; when no
      earlier prompt shares its id, with that very prompt's template. */
  lemma ChoosingRenderedItem(ps: seq<Prompt>, i: nat)
    requires i < |ps|
    ensures SelectedTemplate(Some(ps), RenderedItems(Some(ps))[i].value).Some?
    ensures (forall j :: 0 <= j < i ==> ps[j].id != ps[i].id) ==>
      SelectedTemplate(Some(ps), RenderedItems(Some(ps))[i].value) == Some(ps[i].template)
  {
  }

  /** The `PromptSelect` component: `prompts` is its state hook; `selections`
      records the templates passed to `onSelected`, in order. */
  class PromptSelect {
    var prompts: Option<seq<Prompt>>
    ghost var selections: seq<string>

    constructor ()
      ensures prompts == None && selections == []
    {
      prompts := None;
      selections := [];
    }

    method HandleSelected(promptId: string)
      modifies this`selections
      ensures prompts == old(prompts)
      ensures selections == old(selections) +
        match SelectedTemplate(prompts, promptId) case None => [] case Some(t) => [t]
    {
      var template := if prompts.None? then None else Find(prompts.value, promptId);
      if template.None? {
        return;
      }
      selections := selections + [template.value.template];
    }

    /** `getPrompts`, with the fetched list as its argument: the list replaces
        whatever was loaded before. */
    method GetPrompts(data: seq<Prompt>)
      modifies this`prompts
      ensures prompts == Some(data)
    {
      prompts := Some(data);
    }
  }
}
