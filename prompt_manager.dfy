/** The prompt list of the event editor: a list of `{text, id}` records, the
    parent's parallel list of texts, the parent's current prompt and the
    "add new prompt" input. Identifiers are supplied by the caller (the
    component takes them from the clock). */
module PromptManager {
  import opened Common
  import opened JsString

  /** One entry of the list: its text and the identifier it was created with. */
  datatype Prompt = Prompt(text: string, id: nat)

  /** `prompts.map(p => p.text)`. */
  function Texts(ps: seq<Prompt>): (r: seq<string>)
    ensures |r| == |ps|
    ensures forall i :: 0 <= i < |ps| ==> r[i] == ps[i].text
  {
    if ps == [] then [] else [ps[0].text] + Texts(ps[1..])
  }

  /** The identifiers of the entries, in order. */
  function Ids(ps: seq<Prompt>): (r: seq<nat>)
    ensures |r| == |ps|
    ensures forall i :: 0 <= i < |ps| ==> r[i] == ps[i].id
  {
    if ps == [] then [] else [ps[0].id] + Ids(ps[1..])
  }

  /** No two entries share an identifier. */
  predicate UniqueIds(ps: seq<Prompt>)
  {
    forall i, j :: 0 <= i < j < |ps| ==> ps[i].id != ps[j].id
  }

  /** The search condition of `setActivePrompt`. */
  function HasId(id: nat): Prompt -> bool
  {
    (p: Prompt) => p.id == id
  }

  /** The search condition of the current-prompt editor. */
  function HasText(text: string): Prompt -> bool
  {
    (p: Prompt) => p.text == text
  }

  /** The list `savePrompt(id, t)` computes: every entry whose identifier is
      `id` gets text `t`; everything else stays where and as it was. */
  function WithText(ps: seq<Prompt>, id: nat, t: string): (r: seq<Prompt>)
    ensures |r| == |ps|
    ensures forall i :: 0 <= i < |ps| ==> r[i].id == ps[i].id
    ensures forall i :: 0 <= i < |ps| ==> r[i].text == (if ps[i].id == id then t else ps[i].text)
  {
    if ps == [] then []
    else [if ps[0].id == id then ps[0].(text := t) else ps[0]] + WithText(ps[1..], id, t)
  }

  /** Saving keeps every identifier in place. */
  lemma WithTextKeepsIds(ps: seq<Prompt>, id: nat, t: string)
    ensures Ids(WithText(ps, id, t)) == Ids(ps)
  {
  }

  /** Saving keeps the identifiers unique. */
  lemma WithTextKeepsUnique(ps: seq<Prompt>, id: nat, t: string)
    requires UniqueIds(ps)
    ensures UniqueIds(WithText(ps, id, t))
  {
  }

  /** Saving under an identifier nobody has changes nothing. */
  lemma WithTextAbsent(ps: seq<Prompt>, id: nat, t: string)
    requires forall i :: 0 <= i < |ps| ==> ps[i].id != id
    ensures WithText(ps, id, t) == ps
  {
  }

  /** The last save under an identifier wins; saving the same text twice is
      the same as saving it once. */
  lemma WithTextLastWins(ps: seq<Prompt>, id: nat, a: string, b: string)
    ensures WithText(WithText(ps, id, a), id, b) == WithText(ps, id, b)
    ensures WithText(WithText(ps, id, b), id, b) == WithText(ps, id, b)
  {
  }

  /** With unique identifiers, saving under the identifier of entry `k`
      rewrites that entry and no other. */
  lemma WithTextOneEntry(ps: seq<Prompt>, k: nat, t: string)
    requires UniqueIds(ps) && k < |ps|
    ensures WithText(ps, ps[k].id, t) == ps[k := ps[k].(text := t)]
  {
    var r := WithText(ps, ps[k].id, t);
    forall i | 0 <= i < |ps|
      ensures r[i] == ps[k := ps[k].(text := t)][i]
    {
      assert i != k ==> ps[i].id != ps[k].id;
    }
  }

  /** Appending an entry appends its text. */
  lemma TextsAppend(ps: seq<Prompt>, p: Prompt)
    ensures Texts(ps + [p]) == Texts(ps) + [p.text]
  {
  }

  /** An entry with a fresh identifier keeps the identifiers unique. */
  lemma AppendFreshKeepsUnique(ps: seq<Prompt>, p: Prompt)
    ensures UniqueIds(ps) && (forall i :: 0 <= i < |ps| ==> ps[i].id != p.id) ==> UniqueIds(ps + [p])
  {
  }

  /** The component's state together with the two props it writes through
      (`currentPrompt` via `setCurrentPrompt`, `promptList` via `setPromptList`). */
  class Manager {
    var prompts: seq<Prompt>
    var promptList: seq<string>
    var currentPrompt: string
    var newPrompt: string

    /** The state before the mount effect runs: an empty list and an empty input. */
    constructor (currentPrompt: string, promptList: seq<string>)
      ensures this.prompts == [] && this.newPrompt == ""
      ensures this.currentPrompt == currentPrompt && this.promptList == promptList
    {
      this.prompts := [];
      this.promptList := promptList;
      this.currentPrompt := currentPrompt;
      this.newPrompt := "";
    }

    /** The effect that runs whenever `currentPrompt` changes: a non-empty
        current prompt replaces the list by one entry holding it. The
        parent's `promptList` is not touched. */
    method SyncWithCurrentPrompt(id: nat)
      modifies this
      ensures old(currentPrompt) != "" ==> prompts == [Prompt(old(currentPrompt), id)]
      ensures old(currentPrompt) == "" ==> prompts == old(prompts)
      ensures promptList == old(promptList) && currentPrompt == old(currentPrompt)
      ensures newPrompt == old(newPrompt)
    {
      if currentPrompt != "" {
        prompts := [Prompt(currentPrompt, id)];
      }
    }

    /** Typing into the "add new prompt" input. */
    method SetNewPrompt(text: string)
      modifies this
      ensures newPrompt == text
      ensures prompts == old(prompts) && promptList == old(promptList)
      ensures currentPrompt == old(currentPrompt)
    {
      newPrompt := text;
    }

    /** `addNewPrompt`: a blank input changes nothing; otherwise the raw,
        untrimmed input is appended under `id`, the parent's list becomes the
        texts of the new list and the input is cleared. */
    method AddNewPrompt(id: nat)
      modifies this
      ensures IsBlank(old(newPrompt)) ==>
        prompts == old(prompts) && promptList == old(promptList) && newPrompt == old(newPrompt)
      ensures !IsBlank(old(newPrompt)) ==>
        prompts == old(prompts) + [Prompt(old(newPrompt), id)] && newPrompt == ""
      ensures !IsBlank(old(newPrompt)) ==>
        promptList == Texts(prompts) && promptList == Texts(old(prompts)) + [old(newPrompt)]
      ensures UniqueIds(old(prompts)) && (forall i :: 0 <= i < |old(prompts)| ==> old(prompts)[i].id != id) ==>
        UniqueIds(prompts)
      ensures currentPrompt == old(currentPrompt)
    {
      var truthy := TrimIsTruthy(newPrompt);
      if truthy {
        var entry := Prompt(newPrompt, id);
        var updated := prompts + [entry];
        AppendFreshKeepsUnique(prompts, entry);
        TextsAppend(prompts, entry);
        prompts, promptList, newPrompt := updated, Texts(updated), "";
      }
    }

    /** `savePrompt(id, newText)`: every entry with identifier `id` gets
        `newText`; the parent's list becomes the texts of the new list. */
    method SavePrompt(id: nat, newText: string)
      modifies this
      ensures prompts == WithText(old(prompts), id, newText)
      ensures Ids(prompts) == Ids(old(prompts))
      ensures promptList == Texts(prompts)
      ensures currentPrompt == old(currentPrompt) && newPrompt == old(newPrompt)
    {
      WithTextKeepsIds(prompts, id, newText);
      prompts := WithText(prompts, id, newText);
      promptList := Texts(prompts);
    }

    /** `setActivePrompt(id)`: the first entry with identifier `id` becomes
        the current prompt; an absent identifier changes nothing. */
    method SetActivePrompt(id: nat)
      modifies this
      ensures (exists i :: 0 <= i < |prompts| && prompts[i].id == id) ==>
        exists i :: 0 <= i < |prompts| && prompts[i].id == id && currentPrompt == prompts[i].text
      ensures var f := FindIndex(prompts, HasId(id));
        f.Some? ==> currentPrompt == prompts[f.value].text
      ensures (forall i :: 0 <= i < |prompts| ==> prompts[i].id != id) ==> currentPrompt == old(currentPrompt)
      ensures prompts == old(prompts) && promptList == old(promptList) && newPrompt == old(newPrompt)
    {
      match FindIndex(prompts, HasId(id))
      case Some(k) =>
        currentPrompt := prompts[k].text;
      case None =>
    }

    /** Editing the current-prompt field: the current prompt becomes `text`,
        and the first entry whose text was the previous current prompt is
        saved under its identifier with the new text. */
    method EditCurrentPrompt(text: string)
      modifies this
      ensures currentPrompt == text && newPrompt == old(newPrompt)
      ensures var f := FindIndex(old(prompts), HasText(old(currentPrompt)));
        f.None? ==> prompts == old(prompts) && promptList == old(promptList)
      ensures var f := FindIndex(old(prompts), HasText(old(currentPrompt)));
        f.Some? ==> prompts == WithText(old(prompts), old(prompts)[f.value].id, text) && promptList == Texts(prompts)
      ensures var f := FindIndex(old(prompts), HasText(old(currentPrompt)));
        f.Some? && UniqueIds(old(prompts)) ==>
          prompts == old(prompts)[f.value := Prompt(text, old(prompts)[f.value].id)]
      ensures (forall i :: 0 <= i < |old(prompts)| ==> old(prompts)[i].text != old(currentPrompt)) ==>
        prompts == old(prompts)
    {
      var previous := currentPrompt;
      currentPrompt := text;
      match FindIndex(prompts, HasText(previous))
      case Some(k) =>
        if UniqueIds(prompts) {
          WithTextOneEntry(prompts, k, text);
        }
        SavePrompt(prompts[k].id, text);
      case None =>
    }
  }
}
