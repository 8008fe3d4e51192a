/** The Clients page controller: the mount-time load and the add form, whose
    phone field is validated by a phone-input widget (an oracle here: it
    reports the text and whether it is valid). */
module ClientsPage {
  import opened Common

  /** A client as the server returns it. */
  datatype ClientRecord = ClientRecord(id: int, name: string, email: string, phone: string, company: string)

  /** The body of `POST /clients/`: exactly these three fields. */
  datatype ClientBody = ClientBody(name: string, phone: string, company: string)

  class Page {
    var clients: seq<ClientRecord>
    var name: string
    var phone: string
    var phoneValid: bool
    var company: string

    constructor ()
      ensures clients == [] && name == "" && phone == "" && !phoneValid && company == ""
    {
      clients, name, phone, phoneValid, company := [], "", "", false, "";
    }

    /** The mount effect: the list becomes the response data. A rejected
      request has no handler, so nothing changes. */
    method Load(reply: Option<seq<ClientRecord>>)
      modifies this`clients
      ensures reply.Some? ==> clients == reply.value
      ensures reply.None? ==> clients == old(clients)
    {
      if reply.Some? {
        clients := reply.value;
      }
    }

    method EditName(v: string)
      modifies this`name
      ensures name == v
    {
      name := v;
    }

    method EditCompany(v: string)
      modifies this`company
      ensures company == v
    {
      company := v;
    }

    /** The phone widget's `onChange` and `onValidChange` callbacks. */
    method OnPhoneChange(v: string, valid: bool)
      modifies this`phone, this`phoneValid
      ensures phone == v && phoneValid == valid
    {
      phone := v;
      phoneValid := valid;
    }

    /** `addClient`: nothing at all while the phone is invalid. Otherwise the
      three fields are posted; on success the new client goes first and the
      four form fields reset. A rejected post has no handler, so the state
      stays as it was. */
    method AddClient(reply: Option<ClientRecord>) returns (body: Option<ClientBody>)
      modifies this`clients, this`name, this`phone, this`phoneValid, this`company
      ensures !old(phoneValid) ==>
        body.None? && clients == old(clients)
        && name == old(name) && phone == old(phone) && !phoneValid && company == old(company)
      ensures old(phoneValid) ==> body == Some(ClientBody(old(name), old(phone), old(company)))
      ensures old(phoneValid) && reply.Some? ==>
        clients == [reply.value] + old(clients) && |clients| == |old(clients)| + 1
        && name == "" && phone == "" && !phoneValid && company == ""
      ensures old(phoneValid) && reply.None? ==>
        clients == old(clients) && name == old(name) && phone == old(phone) && phoneValid && company == old(company)
    {
      if !phoneValid {
        return None;
      }
      body := Some(ClientBody(name, phone, company));
      if reply.None? {
        return;
      }
      clients := [reply.value] + clients;
      name := "";
      phone := "";
      phoneValid := false;
      company := "";
    }
  }
}
