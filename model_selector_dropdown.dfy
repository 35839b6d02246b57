/**
 * The hand-built dropdown variant of the model selector. Besides the shared
 * selection, grouping and label logic it keeps one piece of state, whether the menu
 * is open: the trigger button toggles it, and the backdrop, the Escape key and
 * choosing an entry close it. Choosing an entry also hands its id to the page.
 */
module ModelSelectorDropdown {
  import opened Wrappers
  import opened ModelList
  import opened ModelSelector

  /** The user actions the component reacts to. */
  datatype Event = TriggerClick | BackdropClick | KeyDown(key: string) | Choose(modelId: string)

  /** Whether the menu is open after `e`, given whether it was open before. */
  function Next(isOpen: bool, e: Event): bool
  {
    match e
    case TriggerClick => !isOpen
    case BackdropClick => false
    case KeyDown(key) => if key == "Escape" then false else isOpen
    case Choose(_) => false
  }

  /** Whether the menu is open after the events, oldest first. */
  function Run(isOpen: bool, events: seq<Event>): bool
    decreases |events|
  {
    if events == [] then isOpen else Run(Next(isOpen, events[0]), events[1..])
  }

  /** The backdrop, Escape and choosing an entry close the menu; any other key leaves it as it is. */
  lemma Transitions(isOpen: bool, key: string, modelId: string)
    ensures Next(isOpen, TriggerClick) != isOpen
    ensures !Next(isOpen, BackdropClick) && !Next(isOpen, KeyDown("Escape")) && !Next(isOpen, Choose(modelId))
    ensures key != "Escape" ==> Next(isOpen, KeyDown(key)) == isOpen
  {
  }

  /** `n` clicks on the trigger leave the menu as it was exactly when `n` is even. */
  lemma {:induction false} ToggleParity(isOpen: bool, n: nat)
    ensures Run(isOpen, seq(n, _ => TriggerClick)) == if n % 2 == 0 then isOpen else !isOpen
    decreases n
  {
    if n > 0 {
      var clicks := seq(n, _ => TriggerClick);
      assert clicks[1..] == seq(n - 1, _ => TriggerClick);
      ToggleParity(!isOpen, n - 1);
    }
  }

  /** Events that only ever close the menu. */
  predicate Closes(e: Event)
  {
    e.BackdropClick? || e == KeyDown("Escape") || e.Choose?
  }

  /** Whatever happened before, the menu is closed after a closing event. */
  lemma {:induction false} ClosedAfterClosing(isOpen: bool, events: seq<Event>)
    requires events != [] && Closes(events[|events| - 1])
    ensures !Run(isOpen, events)
    decreases |events|
  {
    if |events| > 1 {
      assert events[1..][|events[1..]| - 1] == events[|events| - 1];
      ClosedAfterClosing(Next(isOpen, events[0]), events[1..]);
    }
  }

  /** The component's state and what it has handed to the page through `onModelChange`. */
  class Dropdown {
    var isOpen: bool
    /** The ids passed to `onModelChange`, oldest first. */
    var changes: seq<string>

    /** `useState(false)`: the menu starts closed. */
    constructor()
      ensures !isOpen && changes == []
    {
      isOpen := false;
      changes := [];
    }

    /** The trigger button: `setIsOpen(!isOpen)`. */
    method ClickTrigger()
      modifies this
      ensures isOpen == Next(old(isOpen), TriggerClick) && changes == old(changes)
    {
      isOpen := !isOpen;
    }

    /** A click on the backdrop: `setIsOpen(false)`. */
    method ClickBackdrop()
      modifies this
      ensures isOpen == Next(old(isOpen), BackdropClick) && changes == old(changes)
    {
      isOpen := false;
    }

    /** A key pressed on the backdrop: only Escape closes. */
    method PressKey(key: string)
      modifies this
      ensures isOpen == Next(old(isOpen), KeyDown(key)) && changes == old(changes)
    {
      if key == "Escape" {
        isOpen := false;
      }
    }

    /** `handleModelSelect`: hands the id to the page, then closes the menu. */
    method SelectModel(modelId: string)
      modifies this
      ensures isOpen == Next(old(isOpen), Choose(modelId))
      ensures changes == old(changes) + HandleModelSelect(modelId)
    {
      changes := changes + [modelId];
      isOpen := false;
    }
  }

  /**
   * The menu of the registry: OpenAI, then Google, then Anthropic, each group holding
   * its provider's two models in registry order.
   */
  lemma RegistryMenu()
    ensures ProviderOrder(Models) == [ProviderKey(OpenAI), ProviderKey(Google), ProviderKey(Anthropic)]
    ensures ModelsOf(Models, ProviderKey(OpenAI)) == [Models[0], Models[1]]
    ensures ModelsOf(Models, ProviderKey(Google)) == [Models[2], Models[3]]
    ensures ModelsOf(Models, ProviderKey(Anthropic)) == [Models[4], Models[5]]
  {
    var openAI, google, anthropic := [Models[0], Models[1]], [Models[2], Models[3]], [Models[4], Models[5]];
    ProviderKeyInjective(Google, OpenAI);
    ProviderKeyInjective(Anthropic, OpenAI);
    ProviderKeyInjective(Anthropic, Google);
    ThreeBlockOrder(openAI, google, anthropic, ProviderKey(OpenAI), ProviderKey(Google), ProviderKey(Anthropic));
    ThreeBlockGroups(openAI, google, anthropic, ProviderKey(OpenAI), ProviderKey(Google), ProviderKey(Anthropic));
    assert Models == openAI + google + anthropic;
  }

  /** The group headings of the registry menu, and the label the unused `mistral` key would get. */
  lemma RegistryLabels()
    ensures ProviderLabel(ProviderKey(OpenAI)) == "OpenAI"
    ensures ProviderLabel(ProviderKey(Google)) == "Google"
    ensures ProviderLabel(ProviderKey(Anthropic)) == "Anthropic"
    ensures ProviderLabel(ProviderKey(Mistral)) == "Mistral"
  {
  }
}
