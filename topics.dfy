/**
 * The message types the seat logic reads and writes (package com.topics,
 * which is not part of this model beyond the fields the logic touches).
 * All of them are plain values.
 */
module Topics {

  /** A `java.util.Date`: a point in time, in milliseconds since the epoch. */
  datatype Timestamp = Timestamp(epochMillis: int)

  /** The outcome status of a seat response. */
  datatype Status = HOLDING | BOOKED | FAILED | CONFIRMED
  {
    /** `Status.value()`: the enumeration constant's name. */
    function Value(): string
    {
      match this
      case HOLDING => "HOLDING"
      case BOOKED => "BOOKED"
      case FAILED => "FAILED"
      case CONFIRMED => "CONFIRMED"
    }
  }

  /** An inbound hold request, already checked against its schema. */
  datatype SeatRequest = SeatRequest(topicName: string, correlatorId: int, movieName: string,
                                     showtime: Timestamp, seatNumber: string)

  /** The outbound outcome of a request. */
  datatype SeatResponse = SeatResponse(topicName: string, correlatorId: int, status: Status,
                                       movieName: string, seatNumber: string,
                                       showtime: Timestamp, timestamp: Timestamp)

}
