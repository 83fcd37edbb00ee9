/**
 * Customer records: the field checks applied before a customer is added
 * or edited, and the customers table those operations write.  The table
 * is keyed by phone number (unique in the schema, and required by every
 * insert); names are unique as well.
 */
module Customers {
  import opened Text

  /** The phone check of the add form: digits only, 10 to 15 of them. */
  predicate PhoneOk(phone: string)
  {
    IsDigits(phone) && 10 <= |phone| <= 15
  }

  /** A PAN may be left empty; otherwise only its length, 10, is checked. */
  predicate PanOk(pan: string)
  {
    pan == "" || |pan| == 10
  }

  /** An Aadhaar number may be left empty; otherwise only its length, 12, is checked. */
  predicate AadhaarOk(aadhaar: string)
  {
    aadhaar == "" || |aadhaar| == 12
  }

  /** Why an add or an edit is refused before the table is touched. */
  datatype Check = MissingField | BadPhone | BadPan | BadAadhaar | Passed

  /** The checks of adding a customer, in the order they are made. */
  function AddCheck(name: string, phone: string, pan: string, aadhaar: string): (c: Check)
    ensures c == Passed <==> name != "" && phone != "" && PhoneOk(phone) && PanOk(pan) && AadhaarOk(aadhaar)
    ensures c == MissingField <==> name == "" || phone == ""
  {
    if name == "" || phone == "" then MissingField
    else if !PhoneOk(phone) then BadPhone
    else if !PanOk(pan) then BadPan
    else if !AadhaarOk(aadhaar) then BadAadhaar
    else Passed
  }

  /** The checks of editing a customer: only PAN and Aadhaar. */
  function UpdateCheck(pan: string, aadhaar: string): (c: Check)
    ensures c == Passed <==> PanOk(pan) && AadhaarOk(aadhaar)
    ensures c != MissingField && c != BadPhone
  {
    if !PanOk(pan) then BadPan
    else if !AadhaarOk(aadhaar) then BadAadhaar
    else Passed
  }

  /** Whatever may be added may also be saved again unchanged by the edit form. */
  lemma AddedPassesUpdate(name: string, phone: string, pan: string, aadhaar: string)
    requires AddCheck(name, phone, pan, aadhaar) == Passed
    ensures UpdateCheck(pan, aadhaar) == Passed
  {
  }

  /** An accepted phone number is 10 to 15 decimal digits, so it has no sign, space or "+". */
  lemma AcceptedPhoneIsDigits(name: string, phone: string, pan: string, aadhaar: string, i: int)
    requires AddCheck(name, phone, pan, aadhaar) == Passed && 0 <= i < |phone|
    ensures '0' <= phone[i] <= '9' && 10 <= |phone| <= 15
  {
  }

  datatype Customer = Customer(
    id: nat, name: string, phone: string, address: string, pan: string, aadhaar: string,
    alternatePhone: string, alternatePhone2: string, landline: string)

  /** The customers table. */
  class CustomerBook {
    var byPhone: map<string, Customer>
    var nextId: nat

    /** Each row sits under its own phone, names are unique, and ids below the next one. */
    ghost predicate Valid()
      reads this
    {
      (forall p :: p in byPhone ==> byPhone[p].phone == p && byPhone[p].id < nextId)
      && (forall p, q :: p in byPhone && q in byPhone && p != q ==> byPhone[p].name != byPhone[q].name)
    }

    predicate NameTaken(name: string)
      reads this
    {
      exists p :: p in byPhone && byPhone[p].name == name
    }

    constructor ()
      ensures Valid() && byPhone == map[] && nextId == 1
    {
      byPhone := map[];
      nextId := 1;
    }

    /**
     * Adds a customer.  `None` in the form's terms when a check fails,
     * `false` when the phone or the name is already on file, `true` once
     * the row is inserted.
     */
    method AddNewCustomer(name: string, phone: string, address: string, pan: string, aadhaar: string,
                          alternatePhone: string, alternatePhone2: string, landline: string)
      returns (check: Check, added: bool)
      requires Valid()
      modifies this
      ensures Valid()
      ensures check == AddCheck(name, phone, pan, aadhaar)
      ensures added <==> check == Passed && phone !in old(byPhone) && !old(NameTaken(name))
      ensures added ==> byPhone == old(byPhone)[phone := Customer(old(nextId), name, phone, address, pan, aadhaar,
                                                          alternatePhone, alternatePhone2, landline)]
                        && nextId == old(nextId) + 1
      ensures !added ==> byPhone == old(byPhone) && nextId == old(nextId)
    {
      check := AddCheck(name, phone, pan, aadhaar);
      added := false;
      if check != Passed {
        return;
      }
      if phone in byPhone || NameTaken(name) {
        return;
      }
      byPhone := byPhone[phone := Customer(nextId, name, phone, address, pan, aadhaar,
                                           alternatePhone, alternatePhone2, landline)];
      nextId := nextId + 1;
      added := true;
    }

    /**
     * Edits the customer with this phone: every field but the id and the
     * phone is rewritten.  `false` when a check fails or the new name is
     * another customer's; `true` otherwise, also when no customer has this
     * phone and nothing is written.
     */
    method UpdateCustomer(phone: string, name: string, address: string, pan: string, aadhaar: string,
                          alternatePhone: string, alternatePhone2: string, landline: string)
      returns (ok: bool)
      requires Valid()
      modifies this
      ensures Valid() && nextId == old(nextId)
      ensures ok <==> UpdateCheck(pan, aadhaar) == Passed
                      && !(phone in old(byPhone) && exists p :: p in old(byPhone) && p != phone && old(byPhone)[p].name == name)
      ensures ok && phone in old(byPhone) ==>
        byPhone == old(byPhone)[phone := Customer(old(byPhone)[phone].id, name, phone, address, pan, aadhaar,
                                                  alternatePhone, alternatePhone2, landline)]
      ensures !ok || phone !in old(byPhone) ==> byPhone == old(byPhone)
    {
      if UpdateCheck(pan, aadhaar) != Passed {
        return false;
      }
      if phone !in byPhone {
        return true;
      }
      if exists p :: p in byPhone && p != phone && byPhone[p].name == name {
        return false;
      }
      byPhone := byPhone[phone := Customer(byPhone[phone].id, name, phone, address, pan, aadhaar,
                                           alternatePhone, alternatePhone2, landline)];
      return true;
    }
  }
}
