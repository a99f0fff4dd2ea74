/** The request's story, as the handler destructures it, and the validation
    that rejects incomplete stories before any prompt is built. */
module StorySchema {

  import opened Optional

  /** One entry of `story.characters`. */
  datatype Character = Character(name: string, age: nat)

  /** The fields of `req.body.story` the handler reads. For the theme,
      setting, plot point and character list an absent value stands as ""
      or [], which the handler's falsiness tests treat alike; an absent
      conflict, name or age has no counterpart here. */
  datatype Story = Story(
    theme: string,
    characters: seq<Character>,
    setting: string,
    plotPoint: string,
    conflict: string)

  const IncompleteStoryMsg: string := "Incomplete story data provided"

  /** JavaScript truthiness of a string: only the empty string is falsy. */
  predicate Falsy(s: string) {
    |s| == 0
  }

  /** The rejection message when the story is incomplete, None when it may
      proceed. The conflict is not inspected. */
  function Validate(s: Story): (r: Option<string>)
    ensures r.Some? <==> Falsy(s.theme) || |s.characters| == 0 || Falsy(s.setting) || Falsy(s.plotPoint)
    ensures r.Some? ==> r.value == IncompleteStoryMsg
  {
    if Falsy(s.theme) || |s.characters| == 0 || Falsy(s.setting) || Falsy(s.plotPoint) then
      Some(IncompleteStoryMsg)
    else
      None
  }

  /** Changing the conflict never changes the verdict. */
  lemma ConflictNotValidated(s: Story, conflict: string)
    ensures Validate(s.(conflict := conflict)) == Validate(s)
  {
  }
}
