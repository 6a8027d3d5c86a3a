/** The gate's decision logic proved for two concrete messages. */
module FilterScenarios {

  import opened Wrappers
  import opened MessageFilter

  /** Collaborators that accept every legal name and every topic. */
  function AcceptAll(): Oracles
  {
    Oracles(name => Some(LegalName(name)), (topic, name) => true)
  }

  /**
   * An active, ready gate with whitelist {A, B, C} forwards a message with
   * headers {A, B} and payload "abc" with exactly those headers plus the
   * bridged subject, the payload unchanged, then audits it and releases it.
   */
  lemma {:induction false} WhitelistedHeadersForwarded()
    ensures var m := ReceivedMessage("O=Bank A, L=London, C=GB", "p2p.inbound.x", [0x61, 0x62, 0x63],
                                     map["A" := Val("1"), "B" := Val("2")]);
      InboundEvents(true, true, true, {"A", "B", "C"}, AcceptAll(), m, {}) ==
        [Sent("p2p.inbound.x",
              ArtemisMessage(true, map["A" := Val("1"), "B" := Val("2"),
                                       BridgedCertificateSubject := Val("O=Bank A, L=London, C=GB")],
                             [0x61, 0x62, 0x63]),
              m),
         PacketAccepted(m), Released(m)]
  {
    var m := ReceivedMessage("O=Bank A, L=London, C=GB", "p2p.inbound.x", [0x61, 0x62, 0x63],
                             map["A" := Val("1"), "B" := Val("2")]);
    assert Validate(m, {"A", "B", "C"}, AcceptAll()).None?;
    assert WhitelistedProperties(m, {"A", "B", "C"}) == map["A" := Val("1"), "B" := Val("2")];
  }

  /** A header outside the whitelist: consumed after a drop audit naming the disallowed headers; nothing sent. */
  lemma {:induction false} UnlistedHeaderDropped()
    ensures var m := ReceivedMessage("O=Bank A, L=London, C=GB", "p2p.inbound.x", [0x61],
                                     map["Z" := Val("1")]);
      InboundEvents(true, true, true, {"A", "B", "C"}, AcceptAll(), m, {}) ==
        [PacketDropped(m, FailedValidation(DisallowedHeaderPresent({"Z"}))), Completed(m, true)]
  {
    var m := ReceivedMessage("O=Bank A, L=London, C=GB", "p2p.inbound.x", [0x61],
                             map["Z" := Val("1")]);
    assert "Z" in m.applicationProperties && "Z" !in {"A", "B", "C"};
    assert m.applicationProperties.Keys == {"Z"};
  }
}
