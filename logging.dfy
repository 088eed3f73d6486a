/** The structured logger, as a record of the messages it was given. */
module Logging {

  /** What a "Found N files to ..." message announces. */
  datatype Purpose = ToProcess | ToUpload | ToClean

  /** The verb of a progress message: "processed N files." or "Removed N files.". */
  datatype Verb = Processed | Removed

  datatype Message =
    | FoundFiles(purpose: Purpose, count: nat)
    | Progress(verb: Verb, counter: nat)

  class Logger {
    var messages: seq<Message>

    constructor ()
      ensures messages == []
    {
      messages := [];
    }

    /** logger.info(m). */
    method Info(m: Message)
      modifies this
      ensures messages == old(messages) + [m]
    {
      messages := messages + [m];
    }
  }
}
