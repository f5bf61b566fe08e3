/** A Kafka message as the consumers identify it: its partition and its position in the partition log. */
module Messages {
  datatype Message = Message(partition: nat, offset: nat)
}
