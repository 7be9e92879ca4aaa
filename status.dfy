/** The status surface of the dashboard: the `st.error`, `st.warning`, `st.info` and
    `st.success` calls every component makes. They are recorded, in order, in one shared
    log so that their number and kind can be specified. */
module Status {

  datatype Message = Error(text: string) | Warning(text: string) | Info(text: string) | Success(text: string)

  /** The marks the source puts in front of its status texts. */
  const Cross := "\U{274C} "
  const Caution := "\U{26A0}\U{FE0F} "
  const Check := "\U{2705} "

  /** The Streamlit page, as far as status messages go: one process-wide log. */
  class Ui {
    var messages: seq<Message>

    constructor ()
      ensures messages == []
    {
      messages := [];
    }

    method Emit(m: Message)
      modifies this
      ensures messages == old(messages) + [m]
    {
      messages := messages + [m];
    }
  }

  function ErrorCount(ms: seq<Message>): (n: nat)
    ensures n <= |ms|
  {
    if ms == [] then 0 else (if ms[0].Error? then 1 else 0) + ErrorCount(ms[1..])
  }

  function WarningCount(ms: seq<Message>): (n: nat)
    ensures n <= |ms|
  {
    if ms == [] then 0 else (if ms[0].Warning? then 1 else 0) + WarningCount(ms[1..])
  }
}
