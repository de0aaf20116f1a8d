/** The tuples that the voice gateway source emits and the data router consumes. */
module SpeechStream {

  /** One tuple of the binary speech data stream. An End Of Call Signal carries no speech. */
  datatype BinarySpeech = BinarySpeech(
    session: string,      // vgwSessionId
    isCaller: bool,       // isCustomerSpeechData
    channel: int,         // vgwVoiceChannelNumber
    endOfCall: bool,      // endOfCallSignal
    size: nat,            // number of speech bytes in this tuple
    fragment: nat,        // speechDataFragmentCnt
    total: nat,           // totalSpeechDataBytesReceived
    number: int)          // callSequenceNumber
}
