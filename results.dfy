/** Outcomes of decoding and analysis: every fatal condition of a run is one `Error`. */
module Results {

  datatype Error =
    | Truncated            // a mandatory record runs past the end of the data
    | BadFileTag           // the first three bytes are not "DRS"
    | BadVersion           // the fourth byte is not '2'
    | BadTimeHeader        // the next four bytes are not "TIME"
    | BadBoardHeader       // an event's board header does not start with "B#"
    | BadTriggerHeader     // a trigger-cell header does not start with "T#"
    | BadChannelIndex      // a channel tag names a channel outside 1..4
    | BinIndexOutOfRange   // an accepted sample falls outside the 2001-bin histogram
    | NoAcceptedEvents     // averaging with no accepted event

  datatype Result<+T> = Ok(value: T) | Err(error: Error)

  datatype Option<+T> = None | Some(value: T)
}
