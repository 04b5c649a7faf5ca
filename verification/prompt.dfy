/**
 * The system instruction sent with every request: the fixed prompt, followed,
 * when there is a conversation history, by a "Previous conversation" section
 * holding that history verbatim.
 */
module Prompt {
  import opened Wrappers

  /** `AIGenerator.SYSTEM_PROMPT`: a fixed text whose wording has no bearing on behaviour. */
  const SystemPrompt: string

  /** The delimiter placed between the prompt and the history. */
  const HistoryHeader: string := "\n\nPrevious conversation:\n"

  /** Python truthiness of `conversation_history`: neither `None` nor the empty string. */
  predicate HasHistory(history: Option<string>)
  {
    history.Some? && history.value != ""
  }

  /** The `system_instruction` expression of `generate_response`. */
  function SystemInstruction(history: Option<string>): (r: string)
    ensures SystemPrompt <= r
    ensures r == SystemPrompt <==> !HasHistory(history)
  {
    if HasHistory(history) then SystemPrompt + HistoryHeader + history.value else SystemPrompt
  }

  /** Reads the history section back out of a system instruction, if it has one. */
  function PreviousConversation(instruction: string): (history: Option<string>)
    ensures history.Some? ==> history.value != "" && instruction == SystemPrompt + HistoryHeader + history.value
  {
    var n := |SystemPrompt| + |HistoryHeader|;
    if |instruction| > n && instruction[..n] == SystemPrompt + HistoryHeader then Some(instruction[n..]) else None
  }

  /** The history is carried verbatim: it can be read back exactly, and an absent or empty history leaves no section. */
  lemma {:induction false} SystemInstructionRoundTrip(history: Option<string>)
    ensures PreviousConversation(SystemInstruction(history)) == if HasHistory(history) then history else None
  {
    var n := |SystemPrompt| + |HistoryHeader|;
    if HasHistory(history) {
      var r := SystemPrompt + HistoryHeader + history.value;
      assert r[..n] == SystemPrompt + HistoryHeader;
      assert r[n..] == history.value;
    }
  }

  /** Two histories that give the same instruction are the same history (up to `None` versus `""`). */
  lemma {:induction false} SystemInstructionInjective(h1: Option<string>, h2: Option<string>)
    requires SystemInstruction(h1) == SystemInstruction(h2)
    ensures HasHistory(h1) == HasHistory(h2)
    ensures HasHistory(h1) ==> h1 == h2
  {
    SystemInstructionRoundTrip(h1);
    SystemInstructionRoundTrip(h2);
  }
}
